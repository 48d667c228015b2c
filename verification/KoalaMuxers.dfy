// The mux thread of KoalaPlayer/src/koala_muxer.c: a greedy two-way merge driven by the last written
// timestamps, with one time origin and rescaled packets.
module KoalaMuxers {
  import opened MediaFrames
  import opened Timestamps

  /** The output time base of a stream, as a factor num/den on its timestamps. */
  datatype Factor = Factor(num: nat, den: nat)

  type Scale = f: Factor | f.den > 0 witness Factor(1, 1)

  /** The bases that `koala_muxer_init_open` chooses: milliseconds for both streams of an FLV output. */
  function AudioScale(flv: bool, samplerate: nat): Scale {
    if flv then Factor(1, 1000) else Factor(samplerate, 1000000)
  }

  function VideoScale(flv: bool): Scale {
    if flv then Factor(1, 1000) else Factor(1, 1)
  }

  datatype AVPacket = AVPacket(stream: StreamType, data: Buffer, size: int, pts: int, dts: int, flags: int)

  /** One pass through `write_frame` that got a frame: the frame as it came, as it was stamped, the packet,
      and what av_interleaved_write_frame returned. The frame is released right after. */
  datatype Entry = Entry(stream: StreamType, frame: MediaFrame, stamped: MediaFrame, packet: AVPacket, ret: int)

  /** What surrounds the mux thread: the frames the callbacks will deliver before they end, the outcome of the
      n-th write, and whether `end` is seen raised after the n-th turn of the loop. */
  datatype World = World(
    video: seq<MediaFrame>,
    audio: seq<MediaFrame>,
    conV: Scale,
    conA: Scale,
    writeResult: nat -> int,
    endSeen: nat -> bool)
  {
    function Frames(st: StreamType): seq<MediaFrame> {
      if st.Video? then video else audio
    }
  }

  /** The fields of `koala_muxer` that the mux thread uses, its two locals, and the log of its writes. */
  datatype Mux = Mux(
    firstPts: int,
    lastVideo: int,
    lastAudio: int,
    nextVideo: nat,
    nextAudio: nat,
    encodeVideo: bool,
    encodeAudio: bool,
    broken: bool,        // left the loop because `end` was raised
    turns: nat,
    log: seq<Entry>)
  {
    function Next(st: StreamType): nat {
      if st.Video? then nextVideo else nextAudio
    }

    function Last(st: StreamType): int {
      if st.Video? then lastVideo else lastAudio
    }

    predicate Active(st: StreamType) {
      if st.Video? then encodeVideo else encodeAudio
    }

    predicate Finished() {
      broken || (!encodeVideo && !encodeAudio)
    }

    /** The stream that the loop serves next. */
    function Selected(): StreamType {
      if encodeVideo && (!encodeAudio || lastVideo <= lastAudio) then Video else Audio
    }

    function Ended(st: StreamType): Mux {
      if st.Video? then this.(encodeVideo := false) else this.(encodeAudio := false)
    }
  }

  /** A muxer before its first start. */
  function FreshMux(haveVideo: bool, haveAudio: bool): Mux {
    Mux(-1, 0, 0, 0, 0, haveVideo, haveAudio, false, 0, [])
  }

  function MakePacket(w: World, st: StreamType, frame: MediaFrame): AVPacket {
    match st
    case Audio =>
      var t := Rescale(frame.pts, w.conA.num, w.conA.den);
      AVPacket(st, frame.pBuffer, frame.size, t, t, frame.flag)
    case Video =>
      AVPacket(st, frame.pBuffer, frame.size,
               Rescale(frame.pts, w.conV.num, w.conV.den), Rescale(frame.dts, w.conV.num, w.conV.den), frame.flag)
  }

  /** What `write_frame` makes of the next frame of a stream. */
  function NextEntry(w: World, m: Mux, st: StreamType): Entry
    requires m.Next(st) < |w.Frames(st)|
  {
    var frame := w.Frames(st)[m.Next(st)];
    var stamped := Normalised(NextOrigin(m.firstPts, frame.dts), frame);
    Entry(st, frame, stamped, MakePacket(w, st, stamped), w.writeResult(|m.log|))
  }

  /** `write_frame` once it has a frame. */
  function WriteGot(w: World, m: Mux, st: StreamType): Mux
    requires m.Next(st) < |w.Frames(st)|
  {
    var e := NextEntry(w, m, st);
    var m' := m.(firstPts := NextOrigin(m.firstPts, e.frame.dts), log := m.log + [e]);
    if st.Video? then m'.(lastVideo := e.stamped.pts, nextVideo := m.nextVideo + 1)
    else m'.(lastAudio := e.stamped.pts, nextAudio := m.nextAudio + 1)
  }

  /** `encode_x = !write_frame(x)`: the stream ends when its source does, or when a write does not return 0. */
  function Serve(w: World, m: Mux, st: StreamType): Mux {
    if m.Next(st) >= |w.Frames(st)| then m.Ended(st)
    else if NextEntry(w, m, st).ret == 0 then WriteGot(w, m, st)
    else WriteGot(w, m, st).Ended(st)
  }

  /** One turn of the loop in `mux_thread`; a finished thread stays where it is. */
  function Turn(w: World, m: Mux): Mux {
    if m.Finished() then m
    else
      var m' := Serve(w, m, m.Selected());
      m'.(turns := m.turns + 1, broken := w.endSeen(m.turns))
  }

  function Turns(w: World, m: Mux, n: nat): Mux {
    if n == 0 then m else Turn(w, Turns(w, m, n - 1))
  }

  // ----- Termination -----

  function Remaining(w: World, m: Mux): nat {
    (if m.nextVideo < |w.video| then |w.video| - m.nextVideo else 0)
    + (if m.nextAudio < |w.audio| then |w.audio| - m.nextAudio else 0)
    + (if m.encodeVideo then 1 else 0) + (if m.encodeAudio then 1 else 0)
  }

  lemma TurnProgress(w: World, m: Mux)
    requires !m.Finished()
    ensures Remaining(w, Turn(w, m)) < Remaining(w, m)
  {
  }

  /** The loop ends, after at most one turn per frame and one more per stream. */
  lemma {:induction false} LoopEnds(w: World, m: Mux, n: nat)
    ensures Turns(w, m, n).Finished() || Remaining(w, Turns(w, m, n)) + n <= Remaining(w, m)
    ensures n > Remaining(w, m) ==> Turns(w, m, n).Finished()
  {
    if n > 0 {
      var before := Turns(w, m, n - 1);
      LoopEnds(w, m, n - 1);
      if !before.Finished() {
        TurnProgress(w, before);
      } else {
        assert Turn(w, before) == before;
      }
    }
  }

  /** The state in which the thread leaves its loop. */
  function Final(w: World, m: Mux): Mux {
    Turns(w, m, Remaining(w, m) + 1)
  }

  // ----- Leaving the loop -----

  /** Each turn looks at `end` once, and the loop goes on only if that was not raised. */
  ghost predicate LoopOk(w: World, m: Mux) {
    && (m.broken <==> m.turns > 0 && w.endSeen(m.turns - 1))
    && (forall k: nat | k + 1 < m.turns :: !w.endSeen(k))
  }

  lemma LoopTurn(w: World, m: Mux)
    requires LoopOk(w, m)
    ensures LoopOk(w, Turn(w, m)) && |Turn(w, m).log| <= |m.log| + 1
    ensures Turn(w, m).turns == if m.Finished() then m.turns else m.turns + 1
  {
    if !m.Finished() {
      assert !(m.turns > 0 && w.endSeen(m.turns - 1));
    }
  }

  lemma {:induction false} LoopAlways(w: World, m: Mux, n: nat)
    requires m.turns == 0 && !m.broken
    ensures var t := Turns(w, m, n);
            LoopOk(w, t) && |t.log| <= |m.log| + n && t.turns <= n && (!t.Finished() ==> t.turns == n)
  {
    if n > 0 {
      LoopAlways(w, m, n - 1);
      LoopTurn(w, Turns(w, m, n - 1));
    }
  }

  // ----- The imperative form -----

  class KoalaMuxer {
    const world: World
    var first_pts: int
    var last_video_pts: int
    var last_audio_pts: int
    var nextVideo: nat        // how far the video callback has got
    var nextAudio: nat
    var written: seq<Entry>

    /** This object and the locals of `mux_thread`, as one value. */
    ghost function State(encodeVideo: bool, encodeAudio: bool, broken: bool, turns: nat): Mux
      reads this
    {
      Mux(first_pts, last_video_pts, last_audio_pts, nextVideo, nextAudio,
          encodeVideo, encodeAudio, broken, turns, written)
    }

    constructor (world: World)
      ensures this.world == world
      ensures forall v, a :: State(v, a, false, 0) == FreshMux(v, a)
    {
      this.world := world;
      first_pts, last_video_pts, last_audio_pts := -1, 0, 0;
      nextVideo, nextAudio, written := 0, 0, [];
    }

    /** `write_frame`: 1 when the source has ended, else what the write returned.
        `m` is the state it is called in, with the caller's locals. */
    method WriteFrame(stream: StreamType, ghost m: Mux) returns (ret: int)
      requires m == State(m.encodeVideo, m.encodeAudio, m.broken, m.turns) && m.Active(stream)
      modifies this
      ensures State(if stream.Video? then ret == 0 else m.encodeVideo,
                    if stream.Audio? then ret == 0 else m.encodeAudio, m.broken, m.turns) == Serve(world, m, stream)
      ensures if m.Next(stream) >= |world.Frames(stream)| then ret == 1 && written == m.log
              else |written| == |m.log| + 1 && ret == written[|m.log|].ret == world.writeResult(|m.log|)
    {
      var frame: MediaFrame;
      if stream.Video? {
        if nextVideo >= |world.video| {
          return 1;
        }
        frame := world.video[nextVideo];
        nextVideo := nextVideo + 1;
      } else {
        if nextAudio >= |world.audio| {
          return 1;
        }
        frame := world.audio[nextAudio];
        nextAudio := nextAudio + 1;
      }
      ghost var e := NextEntry(world, m, stream);
      var original := frame;
      if first_pts < 0 {
        first_pts := frame.dts;
      }
      if first_pts > 0 {
        frame := frame.(dts := frame.dts - first_pts);
        frame := frame.(pts := frame.pts - first_pts);
      }
      var pkt := AVPacket(stream, frame.pBuffer, frame.size, frame.pts, frame.dts, frame.flag);
      if stream.Audio? {
        var t := Rescale(frame.pts, world.conA.num, world.conA.den);
        pkt := pkt.(dts := t, pts := t);
      } else {
        pkt := pkt.(pts := Rescale(frame.pts, world.conV.num, world.conV.den));
        pkt := pkt.(dts := Rescale(frame.dts, world.conV.num, world.conV.den));
      }
      if stream.Video? {
        last_video_pts := frame.pts;
      } else {
        last_audio_pts := frame.pts;
      }
      ret := world.writeResult(|written|);
      assert first_pts == NextOrigin(m.firstPts, e.frame.dts);
      assert Entry(stream, original, frame, pkt, ret) == e;
      written := written + [Entry(stream, original, frame, pkt, ret)];
    }

    /** `mux_thread`, up to the trailer: the locals it leaves its loop with. */
    method MuxThread(haveVideo: bool, haveAudio: bool)
      returns (encode_video: bool, encode_audio: bool, left: bool, n: nat)
      modifies this
      ensures State(encode_video, encode_audio, left, n) == Final(world, old(State(haveVideo, haveAudio, false, 0)))
      ensures left || (!encode_video && !encode_audio)
      ensures left <==> n > 0 && world.endSeen(n - 1)
      ensures forall k: nat | k + 1 < n :: !world.endSeen(k)
    {
      encode_video, encode_audio, left, n := haveVideo, haveAudio, false, 0;
      ghost var start := State(haveVideo, haveAudio, false, 0);
      ghost var m := start;
      while !left && (encode_video || encode_audio)
        invariant m == State(encode_video, encode_audio, left, n) == Turns(world, start, n)
        decreases Remaining(world, m)
      {
        TurnProgress(world, m);
        if encode_video && (!encode_audio || last_video_pts <= last_audio_pts) {
          var ret := WriteFrame(Video, m);
          encode_video := ret == 0;
        } else {
          var ret := WriteFrame(Audio, m);
          encode_audio := ret == 0;
        }
        if world.endSeen(n) {
          left := true;
        }
        n := n + 1;
        m := Turn(world, m);
      }
      LoopLeft(world, start, n);
    }
  }

  lemma {:induction false} FinishedStays(w: World, m: Mux, k: nat, n: nat)
    requires k <= n && Turns(w, m, k).Finished()
    ensures Turns(w, m, n) == Turns(w, m, k)
  {
    if k < n {
      FinishedStays(w, m, k, n - 1);
    }
  }

  lemma LoopLeft(w: World, m: Mux, n: nat)
    requires m.turns == 0 && !m.broken && Turns(w, m, n).Finished() && Turns(w, m, n).turns == n
    ensures var t := Turns(w, m, n);
            && t == Final(w, m) && (t.broken || (!t.encodeVideo && !t.encodeAudio))
            && (t.broken <==> n > 0 && w.endSeen(n - 1)) && (forall k: nat | k + 1 < n :: !w.endSeen(k))
  {
    LoopAlways(w, m, n);
    FinalReached(w, m, n);
  }

  lemma FinalReached(w: World, m: Mux, n: nat)
    requires Turns(w, m, n).Finished()
    ensures Turns(w, m, n) == Final(w, m)
  {
    var bound := Remaining(w, m) + 1;
    LoopEnds(w, m, bound);
    FinishedStays(w, m, n, if n <= bound then bound else n);
    if bound < n {
      FinishedStays(w, m, bound, n);
    }
  }
}
