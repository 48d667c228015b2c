// What the mux thread promises over whole runs, for all sources, write results and moments of `end`.
module MuxTheorems {
  import opened MediaFrames
  import opened Timestamps
  import opened KoalaMuxers

  // ----- Complete merge -----

  /** The source frames of one stream, in the order in which they were written. */
  ghost function Stream(log: seq<Entry>, st: StreamType): seq<MediaFrame> {
    if log == [] then []
    else
      var last := log[|log| - 1];
      Stream(log[..|log| - 1], st) + if last.stream == st then [last.frame] else []
  }

  ghost predicate Failed(log: seq<Entry>, st: StreamType) {
    exists i :: 0 <= i < |log| && log[i].stream == st && log[i].ret != 0
  }

  /** `first_pts` after the first `n` writes. */
  ghost function OriginOf(log: seq<Entry>, n: nat): int
    requires n <= |log|
  {
    if n == 0 then -1 else NextOrigin(OriginOf(log, n - 1), log[n - 1].frame.dts)
  }

  /** Every packet is made from its frame, relative to the origin in force when it was written. */
  ghost predicate EntriesOk(w: World, log: seq<Entry>) {
    forall i: nat | i < |log| ::
      && log[i].stamped == Normalised(OriginOf(log, i + 1), log[i].frame)
      && log[i].packet == MakePacket(w, log[i].stream, log[i].stamped)
  }

  /** `have`: the stream has a callback. */
  ghost predicate StreamOk(w: World, have: bool, m: Mux, st: StreamType) {
    && m.Next(st) <= |w.Frames(st)|
    && Stream(m.log, st) == w.Frames(st)[..m.Next(st)]
    && (m.Active(st) ==> have && !Failed(m.log, st))
    && (have && !m.Active(st) ==> m.Next(st) == |w.Frames(st)| || Failed(m.log, st))
    && (!have ==> m.Next(st) == 0)
  }

  ghost predicate LogOk(w: World, m: Mux) {
    && |m.log| == m.nextVideo + m.nextAudio
    && m.firstPts == OriginOf(m.log, |m.log|)
    && EntriesOk(w, m.log)
    && (forall i: nat | i < |m.log| :: m.log[i].ret == w.writeResult(i))
  }

  ghost predicate MergeOk(w: World, haveVideo: bool, haveAudio: bool, m: Mux) {
    StreamOk(w, haveVideo, m, Video) && StreamOk(w, haveAudio, m, Audio) && LogOk(w, m)
  }

  lemma {:induction false} OriginStable(log: seq<Entry>, e: Entry, n: nat)
    requires n <= |log|
    ensures OriginOf(log + [e], n) == OriginOf(log, n)
  {
    if n > 0 {
      OriginStable(log, e, n - 1);
    }
  }

  lemma EntriesSnoc(w: World, log: seq<Entry>, e: Entry)
    requires EntriesOk(w, log)
    requires e.stamped == Normalised(NextOrigin(OriginOf(log, |log|), e.frame.dts), e.frame)
    requires e.packet == MakePacket(w, e.stream, e.stamped)
    ensures EntriesOk(w, log + [e])
    ensures OriginOf(log + [e], |log| + 1) == NextOrigin(OriginOf(log, |log|), e.frame.dts)
  {
    forall i: nat | i <= |log|
      ensures OriginOf(log + [e], i) == OriginOf(log, i)
    {
      OriginStable(log, e, i);
    }
    forall i: nat | i < |log|
      ensures (log + [e])[i].stamped == Normalised(OriginOf(log + [e], i + 1), (log + [e])[i].frame)
    {
      OriginStable(log, e, i + 1);
      assert (log + [e])[i] == log[i];
    }
  }

  lemma LogWritten(w: World, m: Mux, st: StreamType)
    requires LogOk(w, m) && m.Next(st) < |w.Frames(st)|
    ensures LogOk(w, WriteGot(w, m, st))
  {
    EntriesSnoc(w, m.log, NextEntry(w, m, st));
  }

  lemma LogServed(w: World, m: Mux, st: StreamType)
    requires LogOk(w, m)
    ensures LogOk(w, Serve(w, m, st))
  {
    if m.Next(st) < |w.Frames(st)| {
      LogWritten(w, m, st);
    }
  }

  lemma StreamSnoc(log: seq<Entry>, e: Entry, st: StreamType)
    ensures Stream(log + [e], st) == Stream(log, st) + if e.stream == st then [e.frame] else []
  {
    assert (log + [e])[..|log|] == log;
  }

  lemma FailedSnoc(log: seq<Entry>, e: Entry, st: StreamType)
    ensures Failed(log + [e], st) <==> Failed(log, st) || (st == e.stream && e.ret != 0)
  {
    if Failed(log, st) {
      var i :| 0 <= i < |log| && log[i].stream == st && log[i].ret != 0;
      assert (log + [e])[i] == log[i];
    }
    if st == e.stream && e.ret != 0 {
      assert (log + [e])[|log|] == e;
    }
  }

  lemma StreamWritten(w: World, have: bool, m: Mux, st: StreamType)
    requires StreamOk(w, have, m, st) && m.Active(st) && m.Next(st) < |w.Frames(st)|
    ensures StreamOk(w, have, Serve(w, m, st), st)
  {
    var e := NextEntry(w, m, st);
    StreamSnoc(m.log, e, st);
    FailedSnoc(m.log, e, st);
    assert w.Frames(st)[..m.Next(st) + 1] == w.Frames(st)[..m.Next(st)] + [e.frame];
  }

  lemma OtherWritten(w: World, have: bool, m: Mux, served: StreamType, st: StreamType)
    requires StreamOk(w, have, m, st) && served != st && m.Next(served) < |w.Frames(served)|
    ensures StreamOk(w, have, Serve(w, m, served), st)
  {
    var e := NextEntry(w, m, served);
    StreamSnoc(m.log, e, st);
    FailedSnoc(m.log, e, st);
    assert Stream(m.log, st) + [] == Stream(m.log, st);
  }

  lemma StreamServed(w: World, have: bool, m: Mux, served: StreamType, st: StreamType)
    requires StreamOk(w, have, m, st) && m.Active(served)
    ensures StreamOk(w, have, Serve(w, m, served), st)
  {
    if m.Next(served) < |w.Frames(served)| {
      if served == st {
        StreamWritten(w, have, m, st);
      } else {
        OtherWritten(w, have, m, served, st);
      }
    }
  }

  lemma ServeMerges(w: World, haveVideo: bool, haveAudio: bool, m: Mux, st: StreamType)
    requires MergeOk(w, haveVideo, haveAudio, m) && m.Active(st)
    ensures MergeOk(w, haveVideo, haveAudio, Serve(w, m, st))
  {
    StreamServed(w, haveVideo, m, st, Video);
    StreamServed(w, haveAudio, m, st, Audio);
    LogServed(w, m, st);
  }

  ghost predicate BrokenByEnd(w: World, m: Mux) {
    m.broken ==> m.turns > 0 && w.endSeen(m.turns - 1)
  }

  lemma TurnMerges(w: World, haveVideo: bool, haveAudio: bool, m: Mux)
    requires MergeOk(w, haveVideo, haveAudio, m) && BrokenByEnd(w, m)
    ensures MergeOk(w, haveVideo, haveAudio, Turn(w, m)) && BrokenByEnd(w, Turn(w, m))
  {
    if !m.Finished() {
      ServeMerges(w, haveVideo, haveAudio, m, m.Selected());
      assert Turn(w, m).log == Serve(w, m, m.Selected()).log;
    }
  }

  lemma {:induction false} MergeAlways(w: World, haveVideo: bool, haveAudio: bool, n: nat)
    ensures MergeOk(w, haveVideo, haveAudio, Turns(w, FreshMux(haveVideo, haveAudio), n))
    ensures BrokenByEnd(w, Turns(w, FreshMux(haveVideo, haveAudio), n))
  {
    if n > 0 {
      MergeAlways(w, haveVideo, haveAudio, n - 1);
      TurnMerges(w, haveVideo, haveAudio, Turns(w, FreshMux(haveVideo, haveAudio), n - 1));
    }
  }

  /** A stream was written to its end, or a write failed on it, or the loop was left because `end` was seen
      raised after its last turn. */
  ghost predicate Drained(w: World, m: Mux, st: StreamType) {
    || m.Next(st) == |w.Frames(st)|
    || Failed(m.log, st)
    || (m.broken && m.turns > 0 && w.endSeen(m.turns - 1))
  }

  /** The merge: for all sources, write results and moments of `end`, the loop ends, and what was written is an
      interleaving of prefixes of the two sources, each frame once and in source order. A failed write on one
      stream does not keep the other from being drained. */
  lemma MergeComplete(w: World, haveVideo: bool, haveAudio: bool)
    ensures var f := Final(w, FreshMux(haveVideo, haveAudio));
            && f.Finished()
            && f.nextVideo <= |w.video| && Stream(f.log, Video) == w.video[..f.nextVideo]
            && f.nextAudio <= |w.audio| && Stream(f.log, Audio) == w.audio[..f.nextAudio]
            && |f.log| == f.nextVideo + f.nextAudio
            && (haveVideo ==> Drained(w, f, Video))
            && (haveAudio ==> Drained(w, f, Audio))
  {
    var m := FreshMux(haveVideo, haveAudio);
    var f := Final(w, m);
    LoopEnds(w, m, Remaining(w, m) + 1);
    MergeAlways(w, haveVideo, haveAudio, Remaining(w, m) + 1);
    assert StreamOk(w, haveVideo, f, Video) && StreamOk(w, haveAudio, f, Audio);
  }

  /** `end` is obeyed at once: if it is raised after turn `k`, the loop is left by then, with at most one packet for
      each of those turns, and nothing is written later. */
  lemma {:induction false} EndLeaves(w: World, haveVideo: bool, haveAudio: bool, k: nat, n: nat)
    requires w.endSeen(k) && k < n
    ensures var m := Turns(w, FreshMux(haveVideo, haveAudio), k + 1);
            var t := Turns(w, FreshMux(haveVideo, haveAudio), n);
            m.Finished() && |m.log| <= k + 1 && t == m
  {
    LoopAlways(w, FreshMux(haveVideo, haveAudio), k + 1);
    FinishedStays(w, FreshMux(haveVideo, haveAudio), k + 1, n);
  }

  /** And it is the only thing that leaves the loop early: the thread ends because `end` was seen raised after its last
      turn, or because both streams are through. */
  lemma FinalBrokenIff(w: World, haveVideo: bool, haveAudio: bool)
    ensures var f := Final(w, FreshMux(haveVideo, haveAudio));
            && (f.broken <==> f.turns > 0 && w.endSeen(f.turns - 1))
            && (forall k: nat | k + 1 < f.turns :: !w.endSeen(k))
            && (!f.broken ==> !f.encodeVideo && !f.encodeAudio)
  {
    var m := FreshMux(haveVideo, haveAudio);
    LoopAlways(w, m, Remaining(w, m) + 1);
    LoopEnds(w, m, Remaining(w, m) + 1);
  }

  /** Without write errors and without `end`, both sources are written completely. */
  lemma MergeAll(w: World)
    requires forall n: nat :: w.writeResult(n) == 0 && !w.endSeen(n)
    ensures var f := Final(w, FreshMux(true, true));
            Stream(f.log, Video) == w.video && Stream(f.log, Audio) == w.audio && |f.log| == |w.video| + |w.audio|
  {
    var f := Final(w, FreshMux(true, true));
    MergeComplete(w, true, true);
    FinalLog(w);
    NoFailure(w, f, Video);
    NoFailure(w, f, Audio);
    assert w.video[..f.nextVideo] == w.video;
    assert w.audio[..f.nextAudio] == w.audio;
  }

  lemma FinalLog(w: World)
    ensures LogOk(w, Final(w, FreshMux(true, true)))
  {
    MergeAlways(w, true, true, Remaining(w, FreshMux(true, true)) + 1);
  }

  lemma NoFailure(w: World, m: Mux, st: StreamType)
    requires LogOk(w, m) && forall n: nat :: w.writeResult(n) == 0
    ensures !Failed(m.log, st)
  {
  }

  // ----- One time origin -----

  ghost function Shift(e: Entry): int {
    e.frame.pts - e.stamped.pts
  }

  /** Every frame written so far was shifted by the same amount. */
  ghost predicate UniformShift(log: seq<Entry>) {
    forall i, j | 0 <= i < |log| && 0 <= j < |log| :: Shift(log[i]) == Shift(log[j])
  }

  ghost predicate FirstNonNegative(log: seq<Entry>, k: nat) {
    k < |log| && log[k].frame.dts >= 0 && forall j | 0 <= j < k :: log[j].frame.dts < 0
  }

  lemma {:induction false} OriginBefore(log: seq<Entry>, n: nat)
    requires n <= |log| && forall j | 0 <= j < n :: log[j].frame.dts < 0
    ensures OriginOf(log, n) < 0
  {
    if n > 0 {
      OriginBefore(log, n - 1);
    }
  }

  lemma {:induction false} OriginAfter(log: seq<Entry>, k: nat, n: nat)
    requires FirstNonNegative(log, k) && k < n <= |log|
    ensures OriginOf(log, n) == log[k].frame.dts
  {
    if n == k + 1 {
      OriginBefore(log, k);
    } else {
      OriginAfter(log, k, n - 1);
    }
  }

  /** Frames before the first non-negative dts are not shifted, the others are shifted by that dts. */
  lemma ShiftIs(w: World, log: seq<Entry>, k: nat, i: nat)
    requires EntriesOk(w, log) && FirstNonNegative(log, k) && i < |log|
    ensures Shift(log[i]) == if i < k then 0 else log[k].frame.dts
  {
    if i < k {
      OriginBefore(log, i + 1);
    } else {
      OriginAfter(log, k, i + 1);
    }
  }

  /** The origin is captured late: a non-zero one, after a frame with a negative dts. */
  ghost predicate LateOrigin(log: seq<Entry>) {
    exists k: nat :: FirstNonNegative(log, k) && k > 0 && log[k].frame.dts != 0
  }

  /** One origin serves a run exactly when the first non-negative dts it wrote is that of its very first frame,
      or is zero, or did not occur. */
  lemma LateOriginIff(w: World, haveVideo: bool, haveAudio: bool, n: nat)
    ensures var log := Turns(w, FreshMux(haveVideo, haveAudio), n).log;
            UniformShift(log) <==> !LateOrigin(log)
  {
    RunEntries(w, haveVideo, haveAudio, n);
    UniformIff(w, Turns(w, FreshMux(haveVideo, haveAudio), n).log);
  }

  lemma {:induction false} UniformIff(w: World, log: seq<Entry>)
    requires EntriesOk(w, log)
    ensures UniformShift(log) <==> !LateOrigin(log)
  {
    if k: nat :| FirstNonNegative(log, k) {
      forall i: nat | i < |log|
        ensures Shift(log[i]) == if i < k then 0 else log[k].frame.dts
      {
        ShiftIs(w, log, k, i);
      }
      if LateOrigin(log) {
        var j: nat :| FirstNonNegative(log, j) && j > 0 && log[j].frame.dts != 0;
        assert j == k;
        assert Shift(log[0]) != Shift(log[k]);
      }
    } else {
      NoneNonNegative(log, |log|);
      forall i: nat | i < |log|
        ensures Shift(log[i]) == 0
      {
        OriginBefore(log, i + 1);
      }
    }
  }

  lemma {:induction false} NoneNonNegative(log: seq<Entry>, n: nat)
    requires n <= |log| && forall k: nat :: !FirstNonNegative(log, k)
    ensures forall j | 0 <= j < n :: log[j].frame.dts < 0
  {
    if n > 0 {
      NoneNonNegative(log, n - 1);
      assert !FirstNonNegative(log, n - 1);
    }
  }

  /** The frame that a fresh mux thread writes first. */
  ghost function FirstFrame(w: World, haveVideo: bool, haveAudio: bool): Option<MediaFrame> {
    if haveVideo && w.video != [] then Some(w.video[0])
    else if haveAudio && w.audio != [] then Some(w.audio[0])
    else None
  }

  ghost predicate StartsAt(w: World, haveVideo: bool, haveAudio: bool, dts: int) {
    FirstFrame(w, haveVideo, haveAudio).Some? && FirstFrame(w, haveVideo, haveAudio).value.dts == dts
  }

  ghost predicate NeverPositive(frames: seq<MediaFrame>) {
    forall i | 0 <= i < |frames| :: frames[i].dts <= 0
  }

  /** The sources have the one origin `o`: the dts of the first frame, or 0 if no dts is positive. */
  ghost predicate OneOrigin(w: World, haveVideo: bool, haveAudio: bool, o: nat) {
    StartsAt(w, haveVideo, haveAudio, o) || (o == 0 && NeverPositive(w.video) && NeverPositive(w.audio))
  }

  ghost function Offset(frame: MediaFrame, o: int): MediaFrame {
    frame.(pts := frame.pts - o, dts := frame.dts - o)
  }

  ghost predicate AllOffset(log: seq<Entry>, o: int) {
    forall i | 0 <= i < |log| :: log[i].stamped == Offset(log[i].frame, o)
  }

  /** Nothing has been written, so the first frame is still to come. */
  ghost predicate BeforeFirst(w: World, haveVideo: bool, haveAudio: bool, m: Mux) {
    && m.log == [] && m.firstPts == -1 && m.nextVideo == m.nextAudio == 0 && m.lastVideo == m.lastAudio == 0
    && (m.encodeVideo ==> haveVideo) && (m.encodeAudio ==> haveAudio)
    && (haveVideo && w.video != [] ==> m.encodeVideo)
  }

  ghost predicate OriginSet(w: World, haveVideo: bool, haveAudio: bool, o: nat, m: Mux) {
    || m.firstPts == o
    || (m.firstPts <= 0 && o == 0 && NeverPositive(w.video) && NeverPositive(w.audio))
    || (StartsAt(w, haveVideo, haveAudio, o) && BeforeFirst(w, haveVideo, haveAudio, m))
  }

  lemma OriginServe(w: World, haveVideo: bool, haveAudio: bool, o: nat, m: Mux)
    requires !m.Finished() && OriginSet(w, haveVideo, haveAudio, o, m)
    ensures OriginSet(w, haveVideo, haveAudio, o, Serve(w, m, m.Selected()))
    ensures m.Next(m.Selected()) < |w.Frames(m.Selected())| ==>
              var e := NextEntry(w, m, m.Selected()); e.stamped == Offset(e.frame, o)
  {
  }

  lemma OriginTurn(w: World, haveVideo: bool, haveAudio: bool, o: nat, m: Mux)
    requires OriginSet(w, haveVideo, haveAudio, o, m) && AllOffset(m.log, o)
    ensures OriginSet(w, haveVideo, haveAudio, o, Turn(w, m)) && AllOffset(Turn(w, m).log, o)
  {
    if !m.Finished() {
      OriginServe(w, haveVideo, haveAudio, o, m);
      assert Turn(w, m).log == Serve(w, m, m.Selected()).log;
    }
  }

  lemma {:induction false} OriginAlways(w: World, haveVideo: bool, haveAudio: bool, o: nat, n: nat)
    requires OneOrigin(w, haveVideo, haveAudio, o)
    ensures var m := Turns(w, FreshMux(haveVideo, haveAudio), n);
            OriginSet(w, haveVideo, haveAudio, o, m) && AllOffset(m.log, o)
  {
    if n > 0 {
      OriginAlways(w, haveVideo, haveAudio, o, n - 1);
      OriginTurn(w, haveVideo, haveAudio, o, Turns(w, FreshMux(haveVideo, haveAudio), n - 1));
    }
  }

  /** Sources with one origin: every frame of either stream, in every run, is shifted by just that origin. */
  lemma {:induction false} OriginFromSources(w: World, haveVideo: bool, haveAudio: bool, o: nat, n: nat)
    requires OneOrigin(w, haveVideo, haveAudio, o)
    ensures AllOffset(Turns(w, FreshMux(haveVideo, haveAudio), n).log, o)
  {
    OriginAlways(w, haveVideo, haveAudio, o, n);
  }

  /** An FLV output whose first video frame has the dts `d`, and whose audio starts five seconds later. */
  ghost function LateWorld(d: int): World {
    World([MediaFrame(NoBuffer, 0, 1, d, 1)], [MediaFrame(NoBuffer, 0, 5000000, 5000000, 1)],
          Factor(1, 1000), Factor(1, 1000), _ => 0, _ => false)
  }

  /** After a first frame with a negative dts, which is not shifted, audio is shifted by its own dts. */
  lemma LateRun(d: int)
    requires d < 0
    ensures StartsAt(LateWorld(d), true, true, d)
    ensures var log := Turns(LateWorld(d), FreshMux(true, true), 2).log;
            && |log| == 2 && Shift(log[0]) == 0 && Shift(log[1]) == 5000000
            && log[0].packet.pts == 0 && log[1].packet.pts == 0
            && log[0].frame.pts == 1 && log[1].frame.pts == 5000000
  {
    var w := LateWorld(d);
    var one := Turn(w, FreshMux(true, true));
    assert one == Turns(w, FreshMux(true, true), 1);
    assert one.lastVideo == 1 && one.firstPts == d && !one.Finished();
    assert one.Selected() == Audio;
  }

  /** What is known of the first dts alone: all runs of all sources that start at `d` shift their frames by one
      amount if and only if `d` is not negative. */
  lemma {:induction false} OriginIff(d: int)
    ensures (forall w: World, n: nat | StartsAt(w, true, true, d) ::
               UniformShift(Turns(w, FreshMux(true, true), n).log))
            <==> d >= 0
  {
    if d >= 0 {
      forall w: World, n: nat | StartsAt(w, true, true, d)
        ensures UniformShift(Turns(w, FreshMux(true, true), n).log)
      {
        OriginFromSources(w, true, true, d, n);
      }
    } else {
      LateRun(d);
      var log := Turns(LateWorld(d), FreshMux(true, true), 2).log;
      assert Shift(log[0]) != Shift(log[1]);
    }
  }

  /** What stamping and rescaling leave alone in every packet of every run: payload, size and key flag; on video the
      distance of pts and dts to within one output unit, and their order; on audio dts follows pts. */
  lemma {:induction false} PacketsFaithful(w: World, haveVideo: bool, haveAudio: bool, n: nat, i: nat)
    requires i < |Turns(w, FreshMux(haveVideo, haveAudio), n).log|
    ensures var e := Turns(w, FreshMux(haveVideo, haveAudio), n).log[i];
            && e.packet.stream == e.stream && e.packet.data == e.frame.pBuffer
            && e.packet.size == e.frame.size && e.packet.flags == e.frame.flag
            && (e.stream.Audio? ==> e.packet.dts == e.packet.pts)
            && (e.stream.Video? ==>
                  && -(w.conV.den as int) <= (e.packet.pts - e.packet.dts) * w.conV.den
                                             - (e.frame.pts - e.frame.dts) * w.conV.num <= w.conV.den
                  && (e.frame.dts <= e.frame.pts ==> e.packet.dts <= e.packet.pts))
  {
    RunEntries(w, haveVideo, haveAudio, n);
    var e := Turns(w, FreshMux(haveVideo, haveAudio), n).log[i];
    assert e.stamped.pts - e.stamped.dts == e.frame.pts - e.frame.dts;
    RescaleDistance(e.stamped.pts, e.stamped.dts, w.conV.num, w.conV.den);
    if e.frame.dts <= e.frame.pts {
      RescaleMonotone(e.stamped.dts, e.stamped.pts, w.conV.num, w.conV.den);
    }
  }

  /** The origin that the packet at `i` is written relative to: none before the first non-negative dts, and that
      dts from then on. */
  ghost function OriginAt(log: seq<Entry>, i: nat): int
    requires i < |log|
  {
    var k := FirstTimed(log);
    if i < k then 0 else log[k].frame.dts
  }

  /** The place of the first non-negative dts, or the length of the log. */
  ghost function FirstTimed(log: seq<Entry>): (k: nat)
    ensures k <= |log|
    ensures forall j | 0 <= j < k :: log[j].frame.dts < 0
    ensures k < |log| ==> log[k].frame.dts >= 0
  {
    if log == [] then 0
    else
      var k := FirstTimed(log[..|log| - 1]);
      if k < |log| - 1 || log[|log| - 1].frame.dts >= 0 then k else |log|
  }

  ghost function Base(w: World, st: StreamType): Scale {
    if st.Video? then w.conV else w.conA
  }

  /** `ticks` is `time` on this base, to within half a unit. */
  ghost predicate Near(ticks: int, time: int, base: Scale) {
    -(base.den as int) <= 2 * (ticks * base.den - time * base.num) <= base.den
  }

  /** Every packet of every run carries its frame's own timestamp, relative to the origin in force, on the base of its
      own stream, to within half a unit of it; on video its dts too. */
  lemma {:induction false} PacketTimes(w: World, haveVideo: bool, haveAudio: bool, n: nat, i: nat)
    requires i < |Turns(w, FreshMux(haveVideo, haveAudio), n).log|
    ensures var log := Turns(w, FreshMux(haveVideo, haveAudio), n).log;
            var (e, o, base) := (log[i], OriginAt(log, i), Base(w, log[i].stream));
            && Near(e.packet.pts, e.frame.pts - o, base)
            && (e.stream.Video? ==> Near(e.packet.dts, e.frame.dts - o, base))
  {
    RunEntries(w, haveVideo, haveAudio, n);
    var log := Turns(w, FreshMux(haveVideo, haveAudio), n).log;
    StampedAt(w, log, i);
    PacketNearest(w, log[i], log[i].frame.pts - OriginAt(log, i), log[i].frame.dts - OriginAt(log, i));
  }

  lemma PacketNearest(w: World, e: Entry, pts: int, dts: int)
    requires e.packet == MakePacket(w, e.stream, e.stamped) && e.stamped.pts == pts && e.stamped.dts == dts
    ensures Near(e.packet.pts, pts, Base(w, e.stream))
    ensures e.stream.Video? ==> Near(e.packet.dts, dts, Base(w, e.stream))
  {
    var base := Base(w, e.stream);
    RescaleNearest(e.stamped.pts, base.num, base.den);
    if e.stream.Video? {
      RescaleNearest(e.stamped.dts, base.num, base.den);
    }
  }

  /** The bases count true time: k seconds of source time, in microseconds, are k times the ticks per second of the
      output, which are milliseconds in an FLV output, else samples on audio and microseconds on video. */
  lemma SecondsKept(flv: bool, samplerate: nat, k: nat)
    ensures var (a, v) := (AudioScale(flv, samplerate), VideoScale(flv));
            && Rescale(k * 1000000, a.num, a.den) == k * (if flv then 1000 else samplerate)
            && Rescale(k * 1000000, v.num, v.den) == k * (if flv then 1000 else 1000000)
  {
    ExactTicks(k * 1000000, 1, 1000, k * 1000);
    ExactTicks(k * 1000000, 1, 1, k * 1000000);
    assert k * 1000000 * samplerate == k * samplerate * 1000000;
    ExactTicks(k * 1000000, samplerate, 1000000, k * samplerate);
  }

  lemma ExactTicks(x: nat, num: nat, den: nat, ticks: nat)
    requires den > 0 && x * num == ticks * den
    ensures Rescale(x, num, den) == ticks
  {
    RescaleNearest(x, num, den);
    assert -(den as int) <= 2 * ((Rescale(x, num, den) - ticks) * den) <= den;
    NearZero(Rescale(x, num, den) - ticks, den);
  }

  lemma NearZero(m: int, den: nat)
    requires den > 0 && -(den as int) <= 2 * (m * den) <= den
    ensures m == 0
  {
    NonNegativeFactor(m, den);
    NonNegativeFactor(-m, den);
  }

  lemma StampedAt(w: World, log: seq<Entry>, i: nat)
    requires EntriesOk(w, log) && i < |log|
    ensures log[i].stamped == Offset(log[i].frame, OriginAt(log, i))
  {
    var k := FirstTimed(log);
    if i < k {
      OriginBefore(log, i + 1);
    } else {
      OriginAfter(log, k, i + 1);
    }
  }

  // ----- A/V sync end to end -----

  /** With one output base and sources of one origin, the distance of any two written packets, of either stream,
      is the distance of the captured frames to within one output unit, and their order is never reversed. */
  lemma {:induction false} SyncKept(w: World, haveVideo: bool, haveAudio: bool, o: nat, n: nat, i: nat, j: nat)
    requires w.conV == w.conA && OneOrigin(w, haveVideo, haveAudio, o)
    requires var log := Turns(w, FreshMux(haveVideo, haveAudio), n).log; i < |log| && j < |log|
    ensures var log := Turns(w, FreshMux(haveVideo, haveAudio), n).log;
            var (num, den) := (w.conV.num, w.conV.den);
            && -(den as int) <= (log[i].packet.pts - log[j].packet.pts) * den
                                - (log[i].frame.pts - log[j].frame.pts) * num <= den
            && (log[i].frame.pts <= log[j].frame.pts ==> log[i].packet.pts <= log[j].packet.pts)
  {
    var log := Turns(w, FreshMux(haveVideo, haveAudio), n).log;
    RunEntries(w, haveVideo, haveAudio, n);
    OriginFromSources(w, haveVideo, haveAudio, o, n);
    PacketDistance(w, log[i], log[j]);
  }

  /** Two packets of an FLV output, where both streams count milliseconds, keep their distance to within one. */
  ghost predicate InSync(a: Entry, b: Entry) {
    -1000 <= (a.packet.pts - b.packet.pts) * 1000 - (a.frame.pts - b.frame.pts) <= 1000
  }

  ghost predicate FlvOutput(w: World) {
    w.conV == VideoScale(true) && exists samplerate: nat :: w.conA == AudioScale(true, samplerate)
  }

  lemma {:induction false} FlvInSync(w: World, o: nat, n: nat, i: nat, j: nat)
    requires FlvOutput(w) && OneOrigin(w, true, true, o)
    requires var log := Turns(w, FreshMux(true, true), n).log; i < |log| && j < |log|
    ensures var log := Turns(w, FreshMux(true, true), n).log; InSync(log[i], log[j])
  {
    SyncKept(w, true, true, o, n, i, j);
  }

  /** Audio and video of all FLV outputs that start at the dts `d` stay in sync to within a millisecond if and
      only if `d` is not negative. */
  lemma {:induction false} FlvInSyncIff(d: int)
    ensures (forall w: World, n: nat, i: nat, j: nat |
               && FlvOutput(w) && StartsAt(w, true, true, d)
               && i < |Turns(w, FreshMux(true, true), n).log| && j < |Turns(w, FreshMux(true, true), n).log| ::
               InSync(Turns(w, FreshMux(true, true), n).log[i], Turns(w, FreshMux(true, true), n).log[j]))
            <==> d >= 0
  {
    if d >= 0 {
      forall w: World, n: nat, i: nat, j: nat |
        && FlvOutput(w) && StartsAt(w, true, true, d)
        && i < |Turns(w, FreshMux(true, true), n).log| && j < |Turns(w, FreshMux(true, true), n).log|
        ensures InSync(Turns(w, FreshMux(true, true), n).log[i], Turns(w, FreshMux(true, true), n).log[j])
      {
        FlvInSync(w, d, n, i, j);
      }
    } else {
      LateRun(d);
      var log := Turns(LateWorld(d), FreshMux(true, true), 2).log;
      assert LateWorld(d).conA == AudioScale(true, 44100);
      assert !InSync(log[0], log[1]);
    }
  }

  lemma RunEntries(w: World, haveVideo: bool, haveAudio: bool, n: nat)
    ensures EntriesOk(w, Turns(w, FreshMux(haveVideo, haveAudio), n).log)
  {
    MergeAlways(w, haveVideo, haveAudio, n);
  }

  lemma PacketDistance(w: World, a: Entry, b: Entry)
    requires w.conV == w.conA && Shift(a) == Shift(b)
    requires a.packet == MakePacket(w, a.stream, a.stamped) && b.packet == MakePacket(w, b.stream, b.stamped)
    ensures var (num, den) := (w.conV.num, w.conV.den);
            && -(den as int) <= (a.packet.pts - b.packet.pts) * den - (a.frame.pts - b.frame.pts) * num <= den
            && (a.frame.pts <= b.frame.pts ==> a.packet.pts <= b.packet.pts)
  {
    RescaleDistance(a.stamped.pts, b.stamped.pts, w.conV.num, w.conV.den);
    assert a.stamped.pts - b.stamped.pts == a.frame.pts - b.frame.pts;
    if a.frame.pts <= b.frame.pts {
      RescaleMonotone(a.stamped.pts, b.stamped.pts, w.conV.num, w.conV.den);
    }
  }

  // ----- Bounded skew -----

  function Max(a: int, b: int): int {
    if a < b then b else a
  }

  /** The timestamps written on one stream, as they were stamped. */
  ghost function Stamps(log: seq<Entry>, st: StreamType): seq<int> {
    if log == [] then []
    else
      var last := log[|log| - 1];
      Stamps(log[..|log| - 1], st) + if last.stream == st then [last.stamped.pts] else []
  }

  /** The latest timestamp, and at least the start 0. */
  ghost function Latest(ts: seq<int>): int {
    if ts == [] then 0 else Max(Latest(ts[..|ts| - 1]), ts[|ts| - 1])
  }

  ghost function LastOf(ts: seq<int>): int {
    if ts == [] then 0 else ts[|ts| - 1]
  }

  /** Timestamps advance by at most `d` beyond the latest one, and fall behind it by at most `e`
      (reordered frames; `e` is 0 for a monotone stream). */
  ghost predicate Paced(ts: seq<int>, d: nat, e: nat) {
    ts == [] ||
    var before := ts[..|ts| - 1];
    Paced(before, d, e) && Latest(before) - e <= ts[|ts| - 1] <= Latest(before) + d
  }

  /** Two streams with their latest and their last timestamps: only the stream that is behind falls back. */
  ghost predicate Balanced(maxA: int, lastA: int, maxB: int, lastB: int, d: nat, e: nat) {
    && maxA - e <= lastA <= maxA && maxB - e <= lastB <= maxB
    && maxA <= maxB + d && maxB <= maxA + d
    && (maxA > maxB ==> lastA == maxA) && (maxB > maxA ==> lastB == maxB)
  }

  /** Serving the stream that is not ahead keeps the balance. */
  lemma BalancedServe(maxA: int, lastA: int, maxB: int, lastB: int, d: nat, e: nat, next: int)
    requires Balanced(maxA, lastA, maxB, lastB, d, e) && lastA <= lastB
    requires maxA - e <= next <= maxA + d
    ensures Balanced(Max(maxA, next), next, maxB, lastB, d, e) && Balanced(maxB, lastB, Max(maxA, next), next, d, e)
  {
  }

  ghost predicate SkewOk(m: Mux, d: nat, e: nat) {
    && m.lastVideo == LastOf(Stamps(m.log, Video)) && m.lastAudio == LastOf(Stamps(m.log, Audio))
    && (m.encodeVideo && m.encodeAudio ==>
          Balanced(Latest(Stamps(m.log, Video)), m.lastVideo, Latest(Stamps(m.log, Audio)), m.lastAudio, d, e))
  }

  lemma StampsSnoc(log: seq<Entry>, e: Entry, st: StreamType)
    ensures Stamps(log + [e], st) == if e.stream == st then Stamps(log, st) + [e.stamped.pts] else Stamps(log, st)
  {
    assert (log + [e])[..|log|] == log;
  }

  lemma PacedSnoc(ts: seq<int>, t: int, d: nat, e: nat)
    ensures Paced(ts + [t], d, e) <==> Paced(ts, d, e) && Latest(ts) - e <= t <= Latest(ts) + d
    ensures Latest(ts + [t]) == Max(Latest(ts), t)
  {
    assert (ts + [t])[..|ts|] == ts;
  }

  /** Both streams are paced in what has been written. */
  ghost predicate RunPaced(log: seq<Entry>, d: nat, e: nat) {
    Paced(Stamps(log, Video), d, e) && Paced(Stamps(log, Audio), d, e)
  }

  lemma PacedBefore(log: seq<Entry>, next: Entry, d: nat, e: nat)
    requires RunPaced(log + [next], d, e)
    ensures RunPaced(log, d, e)
    ensures var ts := Stamps(log, next.stream); Latest(ts) - e <= next.stamped.pts <= Latest(ts) + d
  {
    StampsSnoc(log, next, Video);
    StampsSnoc(log, next, Audio);
    PacedSnoc(Stamps(log, next.stream), next.stamped.pts, d, e);
  }

  /** What a write does to the timestamps: `st` gets one more, the other stream keeps its own. */
  lemma WriteStamps(w: World, m: Mux, st: StreamType)
    requires m.Next(st) < |w.Frames(st)|
    ensures var (next, t) := (NextEntry(w, m, st), WriteGot(w, m, st));
            && next.stream == st && t.log == m.log + [next]
            && t.encodeVideo == m.encodeVideo && t.encodeAudio == m.encodeAudio
            && Stamps(t.log, st) == Stamps(m.log, st) + [next.stamped.pts] && t.Last(st) == next.stamped.pts
            && Latest(Stamps(t.log, st)) == Max(Latest(Stamps(m.log, st)), next.stamped.pts)
            && forall other: StreamType | other != st ::
                 Stamps(t.log, other) == Stamps(m.log, other) && t.Last(other) == m.Last(other)
  {
    var next := NextEntry(w, m, st);
    forall s: StreamType
      ensures Stamps(m.log + [next], s)
              == if next.stream == s then Stamps(m.log, s) + [next.stamped.pts] else Stamps(m.log, s)
    {
      StampsSnoc(m.log, next, s);
    }
    PacedSnoc(Stamps(m.log, st), next.stamped.pts, 0, 0);
  }

  lemma SkewWrite(w: World, m: Mux, st: StreamType, d: nat, e: nat)
    requires SkewOk(m, d, e) && m.Next(st) < |w.Frames(st)|
    requires m.encodeVideo && m.encodeAudio ==> st == m.Selected() && RunPaced(WriteGot(w, m, st).log, d, e)
    ensures SkewOk(WriteGot(w, m, st), d, e)
  {
    WriteStamps(w, m, st);
    if m.encodeVideo && m.encodeAudio {
      var other := if st.Video? then Audio else Video;
      var next := NextEntry(w, m, st);
      PacedBefore(m.log, next, d, e);
      BalancedServe(Latest(Stamps(m.log, st)), m.Last(st), Latest(Stamps(m.log, other)), m.Last(other), d, e,
                    next.stamped.pts);
    }
  }

  lemma SkewTurn(w: World, m: Mux, d: nat, e: nat)
    requires SkewOk(m, d, e) && RunPaced(Turn(w, m).log, d, e)
    ensures SkewOk(Turn(w, m), d, e)
  {
    if !m.Finished() && m.Next(m.Selected()) < |w.Frames(m.Selected())| {
      SkewWrite(w, m, m.Selected(), d, e);
    }
  }

  lemma PacedEarlier(w: World, m: Mux, d: nat, e: nat)
    requires RunPaced(Turn(w, m).log, d, e)
    ensures RunPaced(m.log, d, e)
  {
    if Turn(w, m).log != m.log {
      PacedBefore(m.log, NextEntry(w, m, m.Selected()), d, e);
    }
  }

  lemma {:induction false} SkewAlways(w: World, d: nat, e: nat, n: nat)
    requires RunPaced(Turns(w, FreshMux(true, true), n).log, d, e)
    ensures SkewOk(Turns(w, FreshMux(true, true), n), d, e)
  {
    if n > 0 {
      var before := Turns(w, FreshMux(true, true), n - 1);
      PacedEarlier(w, before, d, e);
      SkewAlways(w, d, e, n - 1);
      SkewTurn(w, before, d, e);
    }
  }

  /** While both streams are active, the last written timestamps of a run whose stamped timestamps are paced
      are never more than d + e apart. */
  lemma {:induction false} BoundedSkew(w: World, d: nat, e: nat, n: nat)
    requires RunPaced(Turns(w, FreshMux(true, true), n).log, d, e)
    ensures SkewWithin(Turns(w, FreshMux(true, true), n), d + e)
  {
    SkewAlways(w, d, e, n);
  }

  ghost predicate SkewWithin(m: Mux, bound: nat) {
    m.encodeVideo && m.encodeAudio ==> -(bound as int) <= m.lastVideo - m.lastAudio <= bound
  }

  /** Sources on which the bound is reached. */
  ghost function SkewedWorld(d: nat, e: nat): World {
    var low := MediaFrame(NoBuffer, 0, -(e as int), 0, 1);
    World(if d == 0 then [low] else [MediaFrame(NoBuffer, 0, d, 0, 1)], [low],
          Factor(1, 1), Factor(1, 1), _ => 0, _ => false)
  }

  /** The first turn writes the first video frame; a later one may write audio. */
  lemma SkewFirst(d: nat, e: nat)
    ensures var (w, one) := (SkewedWorld(d, e), Turns(SkewedWorld(d, e), FreshMux(true, true), 1));
            && one.encodeVideo && one.encodeAudio && !one.broken && one.firstPts == 0 && one.nextAudio == 0
            && Stamps(one.log, Video) == [if d == 0 then -(e as int) else d] && Stamps(one.log, Audio) == []
            && one.lastVideo == (if d == 0 then -(e as int) else d) && one.lastAudio == 0
  {
    var (w, m) := (SkewedWorld(d, e), FreshMux(true, true));
    assert Turns(w, m, 1) == Turn(w, m);
    WriteStamps(w, m, Video);
  }

  lemma SkewSecond(d: nat, e: nat)
    requires d > 0
    ensures var two := Turns(SkewedWorld(d, e), FreshMux(true, true), 2);
            && two.encodeVideo && two.encodeAudio && two.lastVideo == d && two.lastAudio == -(e as int)
            && Stamps(two.log, Video) == [d] && Stamps(two.log, Audio) == [-(e as int)]
  {
    SkewFirst(d, e);
    WriteStamps(SkewedWorld(d, e), Turns(SkewedWorld(d, e), FreshMux(true, true), 1), Audio);
  }

  lemma PacedOne(t: int, d: nat, e: nat)
    requires -(e as int) <= t <= d
    ensures Paced([], d, e) && Paced([t], d, e)
  {
    PacedSnoc([], t, d, e);
    assert [] + [t] == [t];
  }

  lemma SkewReached(d: nat, e: nat, n: nat)
    requires n == if d == 0 then 1 else 2
    ensures var m := Turns(SkewedWorld(d, e), FreshMux(true, true), n);
            && RunPaced(m.log, d, e) && m.encodeVideo && m.encodeAudio
            && (if d == 0 then m.lastAudio - m.lastVideo else m.lastVideo - m.lastAudio) == d + e
  {
    PacedOne(d, d, e);
    PacedOne(-(e as int), d, e);
    if d == 0 {
      SkewFirst(d, e);
    } else {
      SkewSecond(d, e);
    }
  }

  /** The bound is the best one: all runs that are paced by `d` and `e` stay within it if and only if it is at
      least d + e. */
  lemma {:induction false} SkewBoundIff(d: nat, e: nat, bound: nat)
    ensures (forall w: World, n: nat | RunPaced(Turns(w, FreshMux(true, true), n).log, d, e) ::
               SkewWithin(Turns(w, FreshMux(true, true), n), bound))
            <==> bound >= d + e
  {
    if bound >= d + e {
      forall w: World, n: nat | RunPaced(Turns(w, FreshMux(true, true), n).log, d, e)
        ensures SkewWithin(Turns(w, FreshMux(true, true), n), bound)
      {
        BoundedSkew(w, d, e, n);
      }
    } else {
      var n := if d == 0 then 1 else 2;
      SkewReached(d, e, n);
      assert !SkewWithin(Turns(SkewedWorld(d, e), FreshMux(true, true), n), bound);
    }
  }

  /** The source timestamps, relative to `o`. */
  ghost function Relative(frames: seq<MediaFrame>, o: int): (ts: seq<int>)
    ensures |ts| == |frames|
  {
    seq(|frames|, i requires 0 <= i < |frames| => frames[i].pts - o)
  }

  lemma {:induction false} StampsRelative(log: seq<Entry>, o: int, st: StreamType)
    requires AllOffset(log, o)
    ensures Stamps(log, st) == Relative(Stream(log, st), o)
  {
    if log != [] {
      StampsRelative(log[..|log| - 1], o, st);
    }
  }

  lemma {:induction false} PacedPrefix(ts: seq<int>, d: nat, e: nat, k: nat)
    requires Paced(ts, d, e) && k <= |ts|
    ensures Paced(ts[..k], d, e)
  {
    if k == |ts| {
      assert ts[..k] == ts;
    } else {
      PacedPrefix(ts[..|ts| - 1], d, e, k);
      assert ts[..|ts| - 1][..k] == ts[..k];
    }
  }

  lemma PacedSource(w: World, m: Mux, st: StreamType, o: int, d: nat, e: nat)
    requires StreamOk(w, true, m, st) && AllOffset(m.log, o) && Paced(Relative(w.Frames(st), o), d, e)
    ensures Paced(Stamps(m.log, st), d, e)
  {
    StampsRelative(m.log, o, st);
    PacedPrefix(Relative(w.Frames(st), o), d, e, m.Next(st));
    assert Relative(w.Frames(st), o)[..m.Next(st)] == Relative(w.Frames(st)[..m.Next(st)], o);
  }

  /** The same from the sources alone: if they have one origin and are paced relative to it, every run is. */
  lemma {:induction false} SourceSkew(w: World, o: nat, d: nat, e: nat, n: nat)
    requires OneOrigin(w, true, true, o)
    requires Paced(Relative(w.video, o), d, e) && Paced(Relative(w.audio, o), d, e)
    ensures SkewWithin(Turns(w, FreshMux(true, true), n), d + e)
  {
    var m := Turns(w, FreshMux(true, true), n);
    MergeAlways(w, true, true, n);
    OriginFromSources(w, true, true, o, n);
    PacedSource(w, m, Video, o, d, e);
    PacedSource(w, m, Audio, o, d, e);
    BoundedSkew(w, d, e, n);
  }

  /** Successive timestamps that start from 0, never fall, and rise by at most `d`. */
  ghost predicate Monotone(ts: seq<int>, d: nat) {
    forall i | 0 <= i < |ts| :: PreviousOf(ts, i) <= ts[i] <= PreviousOf(ts, i) + d
  }

  ghost function PreviousOf(ts: seq<int>, i: nat): int
    requires i < |ts|
  {
    if i == 0 then 0 else ts[i - 1]
  }

  lemma {:induction false} MonotoneIsPaced(ts: seq<int>, d: nat)
    requires Monotone(ts, d)
    ensures Paced(ts, d, 0) && Latest(ts) == LastOf(ts)
  {
    if ts != [] {
      var before := ts[..|ts| - 1];
      assert forall i | 0 <= i < |before| :: PreviousOf(before, i) == PreviousOf(ts, i);
      MonotoneIsPaced(before, d);
      assert LastOf(before) == PreviousOf(ts, |ts| - 1);
    }
  }

  /** Streams whose written timestamps start from 0 and never fall are at most one step apart. */
  lemma {:induction false} MonotoneSkew(w: World, d: nat, n: nat)
    requires var log := Turns(w, FreshMux(true, true), n).log;
             Monotone(Stamps(log, Video), d) && Monotone(Stamps(log, Audio), d)
    ensures SkewWithin(Turns(w, FreshMux(true, true), n), d)
  {
    MonotoneIsPaced(Stamps(Turns(w, FreshMux(true, true), n).log, Video), d);
    MonotoneIsPaced(Stamps(Turns(w, FreshMux(true, true), n).log, Audio), d);
    BoundedSkew(w, d, 0, n);
  }
}
