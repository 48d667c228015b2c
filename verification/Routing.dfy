// Where a token can be in the pipeline and how it moves, for any kind of token.
// The frame pipeline routes frame addresses; the reference pipeline routes the packets they carry.
module Routing {
  import opened MediaFrames
  import opened RingBuffers

  /** An encoder thread: `func` between dequeue, `deal` and enqueue. */
  datatype EncoderPc<+F> =
    | EncoderIdle
    | GotRaw(raw: F)
    | Produced(pkt: nat)         // encoded, not yet wrapped in a frame
    | Encoded(frame: F)
    | EncodedAsleep(frame: F)    // in the timed wait of enqueue

  /** One stream: raw queue, encoder, encoded queue. */
  datatype Lane<+F> = Lane(raw: seq<F>, rawCapacity: nat, enc: seq<F>, encCapacity: nat, encoder: EncoderPc<F>)

  datatype ReaderPc<+F> =
    | ReaderIdle
    | Captured(frame: F, target: Option<StreamType>)
    | CaptureAsleep(frame: F, stream: StreamType)
    | Cleaning(locked: StreamType, counter: int)   // inside cleanIf, holding the queue's mutex

  datatype MuxPc<+F> = MuxIdle | Muxing(stream: StreamType, frame: F)

  datatype Core<+F> = Core(video: Lane<F>, audio: Lane<F>, reader: ReaderPc<F>, mux: MuxPc<F>, lost: seq<F>)
  {
    function Get(st: StreamType): Lane<F> {
      if st.Video? then video else audio
    }

    function Set(st: StreamType, lane: Lane<F>): Core<F> {
      if st.Video? then this.(video := lane) else this.(audio := lane)
    }

    predicate Locked(st: StreamType) {
      reader.Cleaning? && reader.locked == st
    }
  }

  /** The steps that only hand a token on. */
  datatype Move =
    | ReaderEnqueue
    | ReaderTimeout            // the reader ignores -ETIMEDOUT and forgets the frame
    | ReaderResume
    | StartClean(st: StreamType)
    | EncoderDequeue(st: StreamType)
    | EncoderEnqueue(st: StreamType)
    | EncoderRetry(st: StreamType)
    | EncoderResume(st: StreamType)
    | MuxDequeue(st: StreamType)

  predicate CanMove<F>(c: Core<F>, m: Move) {
    match m
    case ReaderEnqueue => c.reader.Captured? && c.reader.target.Some?
    case ReaderTimeout => c.reader.CaptureAsleep?
    case ReaderResume => c.reader.CaptureAsleep?
    case StartClean(_) => c.reader.ReaderIdle?
    case EncoderDequeue(st) => c.Get(st).encoder.EncoderIdle? && c.Get(st).raw != []
    case EncoderEnqueue(st) => c.Get(st).encoder.Encoded? && !c.Locked(st)
    case EncoderRetry(st) => c.Get(st).encoder.EncodedAsleep? && !c.Locked(st)
    case EncoderResume(st) => c.Get(st).encoder.EncodedAsleep? && !c.Locked(st)
    case MuxDequeue(st) => c.mux.MuxIdle? && c.Get(st).enc != [] && !c.Locked(st)
  }

  /** `put` on a raw queue; a token that does not fit is dropped silently. */
  function PutRaw<F>(c: Core<F>, st: StreamType, x: F): Core<F> {
    var lane := c.Get(st);
    if |lane.raw| == lane.rawCapacity then c.(lost := c.lost + [x])
    else c.Set(st, lane.(raw := lane.raw + [x]))
  }

  function PutEncoded<F>(c: Core<F>, st: StreamType, x: F): Core<F> {
    var lane := c.Get(st);
    if |lane.enc| == lane.encCapacity then c.(lost := c.lost + [x])
    else c.Set(st, lane.(enc := lane.enc + [x]))
  }

  function SetEncoder<F>(c: Core<F>, st: StreamType, pc: EncoderPc<F>): Core<F> {
    c.Set(st, c.Get(st).(encoder := pc))
  }

  function Moved<F>(c: Core<F>, m: Move): Core<F>
    requires CanMove(c, m)
  {
    match m
    case ReaderEnqueue =>
      var (x, st) := (c.reader.frame, c.reader.target.value);
      if |c.Get(st).raw| == c.Get(st).rawCapacity then c.(reader := CaptureAsleep(x, st))
      else PutRaw(c.(reader := ReaderIdle), st, x)
    case ReaderTimeout => c.(reader := ReaderIdle, lost := c.lost + [c.reader.frame])
    case ReaderResume => PutRaw(c.(reader := ReaderIdle), c.reader.stream, c.reader.frame)
    case StartClean(st) => c.(reader := Cleaning(st, 0))
    case EncoderDequeue(st) =>
      var lane := c.Get(st);
      c.Set(st, lane.(raw := lane.raw[1..], encoder := GotRaw(lane.raw[0])))
    case EncoderEnqueue(st) =>
      var x := c.Get(st).encoder.frame;
      if |c.Get(st).enc| == c.Get(st).encCapacity then SetEncoder(c, st, EncodedAsleep(x))
      else PutEncoded(SetEncoder(c, st, EncoderIdle), st, x)
    case EncoderRetry(st) => SetEncoder(c, st, Encoded(c.Get(st).encoder.frame))
    case EncoderResume(st) => PutEncoded(SetEncoder(c, st, EncoderIdle), st, c.Get(st).encoder.frame)
    case MuxDequeue(st) =>
      var lane := c.Get(st);
      c.Set(st, lane.(enc := lane.enc[1..])).(mux := Muxing(st, lane.enc[0]))
  }

  // ----- Counting tokens -----

  ghost function Occurs<F>(q: seq<F>, x: F): nat {
    multiset(q)[x]
  }

  ghost function Is<F>(y: F, x: F): nat {
    if y == x then 1 else 0
  }

  ghost function InEncoder<F>(pc: EncoderPc<F>, x: F): nat {
    match pc
    case GotRaw(y) => Is(y, x)
    case Encoded(y) => Is(y, x)
    case EncodedAsleep(y) => Is(y, x)
    case _ => 0
  }

  ghost function InLane<F>(lane: Lane<F>, x: F): nat {
    Occurs(lane.raw, x) + Occurs(lane.enc, x) + InEncoder(lane.encoder, x)
  }

  ghost function InReader<F>(pc: ReaderPc<F>, x: F): nat {
    match pc
    case Captured(y, _) => Is(y, x)
    case CaptureAsleep(y, _) => Is(y, x)
    case _ => 0
  }

  ghost function InMux<F>(pc: MuxPc<F>, x: F): nat {
    match pc
    case MuxIdle => 0
    case Muxing(_, y) => Is(y, x)
  }

  /** How many times `x` sits in a queue, in a thread's hand, or among the lost tokens. */
  ghost function Holders<F>(c: Core<F>, x: F): nat {
    InLane(c.video, x) + InLane(c.audio, x) + InReader(c.reader, x) + InMux(c.mux, x) + Occurs(c.lost, x)
  }

  lemma OccursSnoc<F>(q: seq<F>, y: F, x: F)
    ensures Occurs(q + [y], x) == Occurs(q, x) + Is(y, x)
  {
  }

  lemma OccursTail<F>(q: seq<F>, x: F)
    requires q != []
    ensures Occurs(q, x) == Is(q[0], x) + Occurs(q[1..], x)
  {
    assert q == [q[0]] + q[1..];
  }

  lemma PutRawHolders<F>(c: Core<F>, st: StreamType, y: F, x: F)
    ensures Holders(PutRaw(c, st, y), x) == Holders(c, x) + Is(y, x)
  {
    OccursSnoc(c.lost, y, x);
    OccursSnoc(c.Get(st).raw, y, x);
  }

  lemma PutEncodedHolders<F>(c: Core<F>, st: StreamType, y: F, x: F)
    ensures Holders(PutEncoded(c, st, y), x) == Holders(c, x) + Is(y, x)
  {
    OccursSnoc(c.lost, y, x);
    OccursSnoc(c.Get(st).enc, y, x);
  }

  lemma SetReaderHolders<F>(c: Core<F>, pc: ReaderPc<F>, x: F)
    ensures Holders(c.(reader := pc), x) + InReader(c.reader, x) == Holders(c, x) + InReader(pc, x)
  {
  }

  lemma SetEncoderHolders<F>(c: Core<F>, st: StreamType, pc: EncoderPc<F>, x: F)
    ensures Holders(SetEncoder(c, st, pc), x) + InEncoder(c.Get(st).encoder, x) == Holders(c, x) + InEncoder(pc, x)
  {
  }

  lemma ReaderPutHolders<F>(c: Core<F>, st: StreamType, y: F, x: F)
    requires InReader(c.reader, x) == Is(y, x)
    ensures Holders(PutRaw(c.(reader := ReaderIdle), st, y), x) == Holders(c, x)
  {
    SetReaderHolders(c, ReaderIdle, x);
    PutRawHolders(c.(reader := ReaderIdle), st, y, x);
  }

  lemma ReaderMoveHolders<F>(c: Core<F>, m: Move, x: F)
    requires m.ReaderEnqueue? || m.ReaderTimeout? || m.ReaderResume? || m.StartClean?
    requires CanMove(c, m)
    ensures Holders(Moved(c, m), x) == Holders(c, x)
  {
    match m {
      case ReaderEnqueue =>
        var (y, st) := (c.reader.frame, c.reader.target.value);
        if |c.Get(st).raw| == c.Get(st).rawCapacity {
          SetReaderHolders(c, CaptureAsleep(y, st), x);
        } else {
          ReaderPutHolders(c, st, y, x);
        }
      case ReaderTimeout =>
        OccursSnoc(c.lost, c.reader.frame, x);
      case ReaderResume =>
        ReaderPutHolders(c, c.reader.stream, c.reader.frame, x);
      case StartClean(st) =>
        SetReaderHolders(c, Cleaning(st, 0), x);
    }
  }

  lemma DequeueHolders<F>(c: Core<F>, m: Move, x: F)
    requires m.EncoderDequeue? || m.MuxDequeue?
    requires CanMove(c, m)
    ensures Holders(Moved(c, m), x) == Holders(c, x)
  {
    if m.EncoderDequeue? {
      OccursTail(c.Get(m.st).raw, x);
    } else {
      OccursTail(c.Get(m.st).enc, x);
    }
  }

  lemma EncoderPutHolders<F>(c: Core<F>, st: StreamType, y: F, x: F)
    requires InEncoder(c.Get(st).encoder, x) == Is(y, x)
    ensures Holders(PutEncoded(SetEncoder(c, st, EncoderIdle), st, y), x) == Holders(c, x)
  {
    SetEncoderHolders(c, st, EncoderIdle, x);
    PutEncodedHolders(SetEncoder(c, st, EncoderIdle), st, y, x);
  }

  lemma EncoderMoveHolders<F>(c: Core<F>, m: Move, x: F)
    requires m.EncoderEnqueue? || m.EncoderRetry? || m.EncoderResume?
    requires CanMove(c, m)
    ensures Holders(Moved(c, m), x) == Holders(c, x)
  {
    var y := c.Get(m.st).encoder.frame;
    match m {
      case EncoderRetry(st) => SetEncoderHolders(c, st, Encoded(y), x);
      case EncoderResume(st) => EncoderPutHolders(c, st, y, x);
      case EncoderEnqueue(st) =>
        if |c.Get(st).enc| == c.Get(st).encCapacity {
          SetEncoderHolders(c, st, EncodedAsleep(y), x);
        } else {
          EncoderPutHolders(c, st, y, x);
        }
    }
  }

  /** No move creates, duplicates or destroys a token. */
  lemma {:induction false} MovePreservesHolders<F>(c: Core<F>, m: Move, x: F)
    requires CanMove(c, m)
    ensures Holders(Moved(c, m), x) == Holders(c, x)
  {
    match m {
      case ReaderEnqueue | ReaderTimeout | ReaderResume | StartClean(_) => ReaderMoveHolders(c, m, x);
      case EncoderDequeue(_) | MuxDequeue(_) => DequeueHolders(c, m, x);
      case _ => EncoderMoveHolders(c, m, x);
    }
  }

  /** A token is lost exactly by the reader's timed-out enqueue, or by a put that finds its queue full after a wait. */
  lemma LostIff<F>(c: Core<F>, m: Move)
    requires CanMove(c, m)
    ensures Moved(c, m).lost != c.lost <==>
            || m.ReaderTimeout?
            || (m.ReaderResume? && |c.Get(c.reader.stream).raw| == c.Get(c.reader.stream).rawCapacity)
            || (m.EncoderResume? && |c.Get(m.st).enc| == c.Get(m.st).encCapacity)
    ensures |Moved(c, m).lost| <= |c.lost| + 1
  {
  }

  /** The moves of the producers are the calls of the queue class: the call sleeps exactly when the queue is full,
      a resumed one puts what fits and returns, and a timed-out encoder goes back to try again. */
  lemma ProducersCallQueues<F>(c: Core<F>, m: Move)
    requires CanMove(c, m)
    ensures m.ReaderEnqueue? ==>
              var (x, st) := (c.reader.frame, c.reader.target.value);
              var (before, after) := (c.Get(st), Moved(c, m).Get(st));
              && after.raw == Bounded(before.rawCapacity, before.raw, x)
              && Moved(c, m).reader == (if |before.raw| == before.rawCapacity then CaptureAsleep(x, st) else ReaderIdle)
    ensures m.ReaderResume? ==>
              var (before, after) := (c.Get(c.reader.stream), Moved(c, m).Get(c.reader.stream));
              after.raw == Bounded(before.rawCapacity, before.raw, c.reader.frame) && Moved(c, m).reader == ReaderIdle
    ensures m.EncoderEnqueue? ==>
              var (x, before, after) := (c.Get(m.st).encoder.frame, c.Get(m.st), Moved(c, m).Get(m.st));
              && after.enc == Bounded(before.encCapacity, before.enc, x)
              && after.encoder == (if |before.enc| == before.encCapacity then EncodedAsleep(x) else EncoderIdle)
    ensures m.EncoderResume? ==>
              var (before, after) := (c.Get(m.st), Moved(c, m).Get(m.st));
              && after.enc == Bounded(before.encCapacity, before.enc, before.encoder.frame)
              && after.encoder == EncoderIdle
    ensures m.EncoderRetry? ==> Moved(c, m).Get(m.st).encoder == Encoded(c.Get(m.st).encoder.frame)
  {
  }

  /** So are those of the consumers: each takes the oldest token of its own queue into its hand. */
  lemma ConsumersCallQueues<F>(c: Core<F>, m: Move)
    requires CanMove(c, m)
    ensures m.EncoderDequeue? ==>
              var (before, after) := (c.Get(m.st), Moved(c, m).Get(m.st));
              after.encoder.GotRaw? && before.raw == [after.encoder.raw] + after.raw
    ensures m.MuxDequeue? ==>
              var t := Moved(c, m);
              t.mux.Muxing? && t.mux.stream == m.st && c.Get(m.st).enc == [t.mux.frame] + t.Get(m.st).enc
  {
  }

  // ----- Roles -----

  /** Captured frames on their way to an encoder. */
  ghost predicate RawRole<F>(c: Core<F>, x: F) {
    || x in c.video.raw || x in c.audio.raw
    || c.video.encoder == GotRaw(x) || c.audio.encoder == GotRaw(x)
    || InReader(c.reader, x) > 0
  }

  /** Encoded frames on their way to the muxer. */
  ghost predicate EncodedRole<F>(c: Core<F>, x: F) {
    || x in c.video.enc || x in c.audio.enc
    || c.video.encoder == Encoded(x) || c.audio.encoder == Encoded(x)
    || c.video.encoder == EncodedAsleep(x) || c.audio.encoder == EncodedAsleep(x)
    || InMux(c.mux, x) > 0
  }

  lemma RolesHold<F>(c: Core<F>, x: F)
    ensures RawRole(c, x) || EncodedRole(c, x) || x in c.lost <==> Holders(c, x) > 0
  {
  }

  /** A move never makes an encoded frame of a captured one, or the other way round. */
  lemma MoveKeepsRoles<F>(c: Core<F>, m: Move, x: F)
    requires CanMove(c, m)
    ensures RawRole(Moved(c, m), x) ==> RawRole(c, x)
    ensures EncodedRole(Moved(c, m), x) ==> EncodedRole(c, x)
    ensures Moved(c, m).video.encoder.Produced? ==> Moved(c, m).video.encoder == c.video.encoder
    ensures Moved(c, m).audio.encoder.Produced? ==> Moved(c, m).audio.encoder == c.audio.encoder
  {
  }

  // ----- Renaming tokens -----

  ghost function MapSeq<F, G>(g: F -> G, q: seq<F>): (r: seq<G>)
    ensures |r| == |q| && forall i | 0 <= i < |q| :: r[i] == g(q[i])
  {
    seq(|q|, i requires 0 <= i < |q| => g(q[i]))
  }

  ghost function MapEncoder<F, G>(g: F -> G, pc: EncoderPc<F>): EncoderPc<G> {
    match pc
    case EncoderIdle => EncoderIdle
    case GotRaw(x) => GotRaw(g(x))
    case Produced(p) => Produced(p)
    case Encoded(x) => Encoded(g(x))
    case EncodedAsleep(x) => EncodedAsleep(g(x))
  }

  ghost function MapLane<F, G>(g: F -> G, lane: Lane<F>): Lane<G> {
    Lane(MapSeq(g, lane.raw), lane.rawCapacity, MapSeq(g, lane.enc), lane.encCapacity, MapEncoder(g, lane.encoder))
  }

  ghost function MapReader<F, G>(g: F -> G, pc: ReaderPc<F>): ReaderPc<G> {
    match pc
    case ReaderIdle => ReaderIdle
    case Captured(x, target) => Captured(g(x), target)
    case CaptureAsleep(x, st) => CaptureAsleep(g(x), st)
    case Cleaning(st, n) => Cleaning(st, n)
  }

  ghost function MapMux<F, G>(g: F -> G, pc: MuxPc<F>): MuxPc<G> {
    match pc
    case MuxIdle => MuxIdle
    case Muxing(st, x) => Muxing(st, g(x))
  }

  /** The same pipeline with every token renamed. */
  ghost function MapCore<F, G>(g: F -> G, c: Core<F>): Core<G> {
    Core(MapLane(g, c.video), MapLane(g, c.audio), MapReader(g, c.reader), MapMux(g, c.mux), MapSeq(g, c.lost))
  }

  /** Routing does not look at tokens: renaming commutes with every move. */
  lemma {:induction false} MoveIsNatural<F, G>(g: F -> G, c: Core<F>, m: Move)
    ensures CanMove(c, m) <==> CanMove(MapCore(g, c), m)
    ensures CanMove(c, m) ==> MapCore(g, Moved(c, m)) == Moved(MapCore(g, c), m)
  {
    if CanMove(c, m) {
      match m {
        case ReaderEnqueue | ReaderTimeout | ReaderResume | StartClean(_) =>
          ReaderMoveIsNatural(g, c, m);
        case MuxDequeue(st) =>
          assert MapSeq(g, c.Get(st).enc[1..]) == MapSeq(g, c.Get(st).enc)[1..];
        case _ =>
          EncoderMoveIsNatural(g, c, m);
      }
    }
  }

  lemma MapSnoc<F, G>(g: F -> G, q: seq<F>, x: F)
    ensures MapSeq(g, q + [x]) == MapSeq(g, q) + [g(x)]
  {
  }

  lemma ReaderMoveIsNatural<F, G>(g: F -> G, c: Core<F>, m: Move)
    requires m.ReaderEnqueue? || m.ReaderTimeout? || m.ReaderResume? || m.StartClean?
    requires CanMove(c, m)
    ensures MapCore(g, Moved(c, m)) == Moved(MapCore(g, c), m)
  {
    if !m.StartClean? {
      MapSnoc(g, c.lost, c.reader.frame);
      MapSnoc(g, c.video.raw, c.reader.frame);
      MapSnoc(g, c.audio.raw, c.reader.frame);
    }
  }

  lemma EncoderMoveIsNatural<F, G>(g: F -> G, c: Core<F>, m: Move)
    requires m.EncoderDequeue? || m.EncoderEnqueue? || m.EncoderRetry? || m.EncoderResume?
    requires CanMove(c, m)
    ensures MapCore(g, Moved(c, m)) == Moved(MapCore(g, c), m)
  {
    var lane := c.Get(m.st);
    if m.EncoderDequeue? {
      assert MapSeq(g, lane.raw[1..]) == MapSeq(g, lane.raw)[1..];
    } else {
      MapSnoc(g, c.lost, lane.encoder.frame);
      MapSnoc(g, lane.enc, lane.encoder.frame);
    }
  }

  lemma SetEncoderNatural<F, G>(g: F -> G, c: Core<F>, st: StreamType, pc: EncoderPc<F>)
    ensures MapCore(g, SetEncoder(c, st, pc)) == SetEncoder(MapCore(g, c), st, MapEncoder(g, pc))
  {
  }

  lemma MapSeqAgrees<F, G>(g: F -> G, h: F -> G, q: seq<F>)
    requires forall x | x in q :: g(x) == h(x)
    ensures MapSeq(g, q) == MapSeq(h, q)
  {
  }

  lemma MapLaneAgrees<F(!new), G>(g: F -> G, h: F -> G, lane: Lane<F>)
    requires forall x | InLane(lane, x) > 0 :: g(x) == h(x)
    ensures MapLane(g, lane) == MapLane(h, lane)
  {
    assert forall x | x in lane.raw :: InLane(lane, x) > 0;
    assert forall x | x in lane.enc :: InLane(lane, x) > 0;
    MapSeqAgrees(g, h, lane.raw);
    MapSeqAgrees(g, h, lane.enc);
    if lane.encoder.GotRaw? {
      assert InLane(lane, lane.encoder.raw) > 0;
    } else if lane.encoder.Encoded? || lane.encoder.EncodedAsleep? {
      assert InLane(lane, lane.encoder.frame) > 0;
    }
  }

  lemma MapHandsAgrees<F(!new), G>(g: F -> G, h: F -> G, reader: ReaderPc<F>, mux: MuxPc<F>)
    requires forall x | InReader(reader, x) + InMux(mux, x) > 0 :: g(x) == h(x)
    ensures MapReader(g, reader) == MapReader(h, reader) && MapMux(g, mux) == MapMux(h, mux)
  {
    if reader.Captured? || reader.CaptureAsleep? {
      assert InReader(reader, reader.frame) + InMux(mux, reader.frame) > 0;
    }
    if mux.Muxing? {
      assert InReader(reader, mux.frame) + InMux(mux, mux.frame) > 0;
    }
  }

  /** Two renamings that agree on the tokens in the pipeline give the same pipeline. */
  lemma MapCoreAgrees<F(!new), G>(g: F -> G, h: F -> G, c: Core<F>)
    requires forall x | Holders(c, x) > 0 :: g(x) == h(x)
    ensures MapCore(g, c) == MapCore(h, c)
  {
    MapLaneAgrees(g, h, c.video);
    MapLaneAgrees(g, h, c.audio);
    MapHandsAgrees(g, h, c.reader, c.mux);
    assert forall x | x in c.lost :: Holders(c, x) > 0;
    MapSeqAgrees(g, h, c.lost);
  }
}
