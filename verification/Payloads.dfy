// The reference pipeline: packets travel by themselves, no frame is recycled.
// What a pipeline that allocates a fresh frame for every packet would deliver.
module Payloads {
  import opened MediaFrames
  import opened FrameQueues
  import opened Routing
  import opened Timestamps

  /** The fields of an AVPacket that the encoders copy into a frame; `flag` is its AV_PKT_FLAG_KEY bit. */
  datatype Packet = Packet(size: int, pts: int, dts: int, flag: int)

  /** What the encoder makes of one raw frame. The packet allocated for an encode call that
      yields nothing is never freed. */
  datatype Outcome = Accumulated | NoPacket(unused: Packet) | Got(pkt: Packet)

  datatype Event =
    | Route(move: Move)
    | Capture(pkt: Packet, target: Option<StreamType>)  // read a packet, get a frame, fill it
    | ReaderDiscard                                     // a packet of neither stream
    | CleanNext                                         // one turn of the loop in cleanIf
    | Deal(st: StreamType, outcome: Outcome)            // encode, release the raw frame
    | Wrap(st: StreamType)                              // get a frame, fill it
    | EncoderGiveUp(st: StreamType)                     // timed out while stopping
    | MuxWrite
    | MuxDrop                                           // got a frame after the streamer stopped

  predicate CanStep<F>(c: Core<F>, e: Event) {
    match e
    case Route(m) => CanMove(c, m)
    case Capture(_, _) => c.reader.ReaderIdle?
    case ReaderDiscard => c.reader.Captured? && c.reader.target.None?
    case CleanNext => c.reader.Cleaning?
    case Deal(st, outcome) => c.Get(st).encoder.GotRaw? && (outcome.Accumulated? ==> st.Audio?)
    case Wrap(st) => c.Get(st).encoder.Produced?
    case EncoderGiveUp(st) => c.Get(st).encoder.EncodedAsleep? && !c.Locked(st)
    case MuxWrite => c.mux.Muxing?
    case MuxDrop => c.mux.Muxing?
  }

  /** The callback that the reader cleans this stream's encoded queue with. */
  function CleanStream(st: StreamType, counter: int, frame: MediaFrame): (CleanVerdict, int) {
    if st.Video? then CleanVideo(counter, frame) else CleanAudio(counter, frame)
  }

  /** The oldest encoded token leaves the queue that is being cleaned. */
  function CleanTake<F>(c: Core<F>, counter: int): Core<F>
    requires c.reader.Cleaning? && c.Get(c.reader.locked).enc != []
  {
    var lane := c.Get(c.reader.locked);
    c.Set(c.reader.locked, lane.(enc := lane.enc[1..])).(reader := Cleaning(c.reader.locked, counter))
  }

  function NextEncoder<F>(outcome: Outcome, p: nat): EncoderPc<F> {
    if outcome.Got? then Produced(p) else EncoderIdle
  }

  function NewPackets(outcome: Outcome): seq<Packet> {
    match outcome
    case Accumulated => []
    case NoPacket(unused) => [unused]
    case Got(pkt) => [pkt]
  }

  /** What the muxer passed on: stream and frame, relative to the time origin. */
  datatype Written = Written(stream: StreamType, frame: MediaFrame)

  datatype PState = PState(
    core: Core<nat>,
    packets: seq<Packet>,    // every packet ever allocated
    freed: seq<nat>,
    leaked: seq<nat>,
    firstPts: int,
    written: seq<Written>)

  /** The frame that shows packet `p`. */
  function Shown(p: nat, pkt: Packet): MediaFrame {
    MediaFrame(PacketBytes(p), pkt.size, pkt.pts, pkt.dts, pkt.flag)
  }

  function ShownIn(packets: seq<Packet>, p: nat): MediaFrame {
    if p < |packets| then Shown(p, packets[p]) else MediaFrame(NoBuffer, 0, 0, 0, 0)
  }

  function PStep(s: PState, e: Event): PState
    requires CanStep(s.core, e)
  {
    var c := s.core;
    match e
    case Route(m) => s.(core := Moved(c, m))
    case Capture(pkt, target) =>
      s.(core := c.(reader := Captured(|s.packets|, target)), packets := s.packets + [pkt])
    case ReaderDiscard =>
      s.(core := c.(reader := ReaderIdle), freed := s.freed + [c.reader.frame])
    case CleanNext =>
      var q := c.Get(c.reader.locked).enc;
      if q == [] then s.(core := c.(reader := ReaderIdle))
      else
        var (verdict, counter) := CleanStream(c.reader.locked, c.reader.counter, ShownIn(s.packets, q[0]));
        if verdict.clean then s.(core := CleanTake(c, counter), freed := s.freed + [q[0]])
        else s.(core := c.(reader := ReaderIdle))
    case Deal(st, outcome) =>
      s.(core := SetEncoder(c, st, NextEncoder(outcome, |s.packets|)),
         packets := s.packets + NewPackets(outcome),
         freed := s.freed + [c.Get(st).encoder.raw],
         leaked := if outcome.NoPacket? then s.leaked + [|s.packets|] else s.leaked)
    case Wrap(st) => s.(core := SetEncoder(c, st, Encoded(c.Get(st).encoder.pkt)))
    case EncoderGiveUp(st) =>
      s.(core := SetEncoder(c, st, EncoderIdle), freed := s.freed + [c.Get(st).encoder.frame])
    case MuxWrite =>
      var frame := ShownIn(s.packets, c.mux.frame);
      var first := NextOrigin(s.firstPts, frame.dts);
      s.(core := c.(mux := MuxIdle), firstPts := first,
         written := s.written + [Written(c.mux.stream, Normalised(first, frame))],
         freed := s.freed + [c.mux.frame])
    case MuxDrop => s.(core := c.(mux := MuxIdle), freed := s.freed + [c.mux.frame])
  }

  // ----- Who can move -----

  /** The reader is never stuck; a sleeping one may time out or be woken. */
  lemma ReaderCanMove<F>(c: Core<F>)
    ensures c.reader.ReaderIdle? ==> forall pkt, target :: CanStep(c, Capture(pkt, target))
    ensures c.reader.ReaderIdle? ==> forall st :: CanStep(c, Route(StartClean(st)))
    ensures c.reader.Captured? ==>
              if c.reader.target.Some? then CanStep(c, Route(ReaderEnqueue)) else CanStep(c, ReaderDiscard)
    ensures c.reader.CaptureAsleep? ==> CanStep(c, Route(ReaderTimeout)) && CanStep(c, Route(ReaderResume))
    ensures c.reader.Cleaning? ==> CanStep(c, CleanNext)
  {
  }

  /** An encoder waits only for a raw frame, and, to put an encoded one, for a clean of its queue to end; asleep, it may
      be woken, or time out and either try again or give up. */
  lemma EncoderCanMove<F>(c: Core<F>, st: StreamType)
    ensures c.Get(st).encoder.EncoderIdle? ==> (CanStep(c, Route(EncoderDequeue(st))) <==> c.Get(st).raw != [])
    ensures c.Get(st).encoder.GotRaw? ==>
              forall outcome :: CanStep(c, Deal(st, outcome)) <==> st.Audio? || !outcome.Accumulated?
    ensures c.Get(st).encoder.Produced? ==> CanStep(c, Wrap(st))
    ensures c.Get(st).encoder.Encoded? ==> (CanStep(c, Route(EncoderEnqueue(st))) <==> !c.Locked(st))
    ensures c.Get(st).encoder.EncodedAsleep? ==>
              && (CanStep(c, Route(EncoderRetry(st))) <==> !c.Locked(st))
              && (CanStep(c, Route(EncoderResume(st))) <==> !c.Locked(st))
              && (CanStep(c, EncoderGiveUp(st)) <==> !c.Locked(st))
  {
  }

  /** The mux thread waits only for an encoded frame, or for a clean of that queue to end. */
  lemma MuxCanMove<F>(c: Core<F>)
    ensures c.mux.MuxIdle? ==>
              forall st :: CanStep(c, Route(MuxDequeue(st))) <==> c.Get(st).enc != [] && !c.Locked(st)
    ensures c.mux.Muxing? ==> CanStep(c, MuxWrite) && CanStep(c, MuxDrop)
  {
  }

  // ----- cleanIf as a loop of steps -----

  /** While the reader cleans a queue, no other thread touches it. */
  lemma LockedQueueUntouched(s: PState, e: Event)
    requires s.core.reader.Cleaning? && CanStep(s.core, e) && e != CleanNext
    ensures PStep(s, e).core.reader == s.core.reader
    ensures PStep(s, e).core.Get(s.core.reader.locked).enc == s.core.Get(s.core.reader.locked).enc
    ensures s.packets <= PStep(s, e).packets
  {
  }

  /** The rest of a `cleanIf` call, up to the unlock. */
  ghost function CleanRest(s: PState): PState
    requires s.core.reader.Cleaning?
    decreases |s.core.Get(s.core.reader.locked).enc|
  {
    var t := PStep(s, CleanNext);
    if t.core.reader.Cleaning? then CleanRest(t) else t
  }

  ghost function ShownAll(packets: seq<Packet>, q: seq<nat>): (frames: seq<MediaFrame>)
    ensures |frames| == |q|
  {
    seq(|q|, i requires 0 <= i < |q| => ShownIn(packets, q[i]))
  }

  ghost function Callback(st: StreamType): Cleaner {
    (counter: int, frame: MediaFrame) => CleanStream(st, counter, frame)
  }

  /** Step by step, the reader takes from the queue, and frees, exactly the prefix that the callback asks for. */
  lemma {:induction false} CleanTakesPrefix(s: PState)
    requires s.core.reader.Cleaning?
    ensures var (st, q) := (s.core.reader.locked, s.core.Get(s.core.reader.locked).enc);
            var k := CleanCount(Some(Callback(st)), s.core.reader.counter, ShownAll(s.packets, q));
            var t := CleanRest(s);
            && t.core.reader.ReaderIdle? && t.core.Get(st).enc == q[k..] && t.freed == s.freed + q[..k]
    decreases |s.core.Get(s.core.reader.locked).enc|
  {
    var (st, q) := (s.core.reader.locked, s.core.Get(s.core.reader.locked).enc);
    var t := PStep(s, CleanNext);
    if t.core.reader.Cleaning? {
      CleanTakesPrefix(t);
      assert ShownAll(s.packets, q)[1..] == ShownAll(t.packets, q[1..]);
      CleanOneMore(s.freed, q, CleanCount(Some(Callback(st)), t.core.reader.counter, ShownAll(t.packets, q[1..])));
    }
  }

  /** A whole `cleanIf` call of the reader, with the callback of that stream: video loses the head and the delta frames
      behind it, audio its oldest hundred; what was taken is freed. */
  lemma {:induction false} CleanCall(s: PState, st: StreamType)
    requires s.core.reader.ReaderIdle?
    ensures CanStep(s.core, Route(StartClean(st))) && PStep(s, Route(StartClean(st))).core.reader.Cleaning?
    ensures var q := s.core.Get(st).enc;
            var t := CleanRest(PStep(s, Route(StartClean(st))));
            var k := |q| - |t.core.Get(st).enc|;
            && t.core.reader.ReaderIdle? && 0 <= k <= |q|
            && t.core.Get(st).enc == q[k..] && t.freed == s.freed + q[..k]
            && (st.Audio? ==> k == if |q| < 100 then |q| else 100)
            && (st.Video? && q != [] ==>
                  && 1 <= k && (forall i | 1 <= i < k :: !ShownIn(s.packets, q[i]).IsKey())
                  && (k < |q| ==> ShownIn(s.packets, q[k]).IsKey()))
  {
    var u := PStep(s, Route(StartClean(st)));
    var q := s.core.Get(st).enc;
    var shown := ShownAll(s.packets, q);
    CleanTakesPrefix(u);
    if st.Audio? {
      CallbackCounts(st, 0, shown);
      CleanAudioTakesHundred(0, shown);
    } else if q != [] {
      CallbackCounts(st, 0, shown);
      CleanVideoStopsAtKey(shown);
      assert forall i | 0 <= i < |q| :: shown[i] == ShownIn(s.packets, q[i]);
    }
  }

  lemma {:induction false} CallbackCounts(st: StreamType, counter: int, q: seq<MediaFrame>)
    ensures st.Video? ==> CleanCount(Some(Callback(st)), counter, q) == CleanCount(Some(CleanVideo), counter, q)
    ensures st.Audio? ==> CleanCount(Some(Callback(st)), counter, q) == CleanCount(Some(CleanAudio), counter, q)
    decreases |q|
  {
    if q != [] {
      CallbackCounts(st, Callback(st)(counter, q[0]).1, q[1..]);
    }
  }

  lemma CleanOneMore(freed: seq<nat>, q: seq<nat>, k: nat)
    requires q != [] && k <= |q| - 1
    ensures q[1..][k..] == q[k + 1..]
    ensures freed + [q[0]] + q[1..][..k] == freed + q[..k + 1]
  {
  }

  // ----- Conservation of packets -----

  ghost function InProduction<F>(pc: EncoderPc<F>, p: nat): nat {
    if pc == Produced(p) then 1 else 0
  }

  /** How many places packet `p` is in. */
  ghost function PacketHolders(s: PState, p: nat): nat {
    Holders(s.core, p) + InProduction(s.core.video.encoder, p) + InProduction(s.core.audio.encoder, p)
    + Occurs(s.freed, p) + Occurs(s.leaked, p)
  }

  /** Every allocated packet is in exactly one place: carried, just produced, freed, leaked, or lost with its frame. */
  ghost predicate PacketsConserved(s: PState) {
    forall p: nat :: PacketHolders(s, p) == if p < |s.packets| then 1 else 0
  }

  lemma CleanTakeHolders<F>(c: Core<F>, counter: int, x: F)
    requires c.reader.Cleaning? && c.Get(c.reader.locked).enc != []
    ensures Holders(CleanTake(c, counter), x) + Is(c.Get(c.reader.locked).enc[0], x) == Holders(c, x)
    ensures CleanTake(c, counter).video.encoder == c.video.encoder
    ensures CleanTake(c, counter).audio.encoder == c.audio.encoder
  {
    OccursTail(c.Get(c.reader.locked).enc, x);
  }

  lemma MoveProduction<F>(c: Core<F>, m: Move, p: nat)
    requires CanMove(c, m)
    ensures InProduction(Moved(c, m).video.encoder, p) == InProduction(c.video.encoder, p)
    ensures InProduction(Moved(c, m).audio.encoder, p) == InProduction(c.audio.encoder, p)
  {
  }

  lemma CleanPacket(s: PState, p: nat)
    requires s.core.reader.Cleaning?
    ensures PacketHolders(PStep(s, CleanNext), p) == PacketHolders(s, p)
  {
    var c := s.core;
    var q := c.Get(c.reader.locked).enc;
    SetReaderHolders(c, ReaderIdle, p);
    if q != [] {
      var (verdict, counter) := CleanStream(c.reader.locked, c.reader.counter, ShownIn(s.packets, q[0]));
      if verdict.clean {
        CleanTakeHolders(c, counter, p);
        OccursSnoc(s.freed, q[0], p);
      }
    }
  }

  /** Where a packet is while an encoder has it: carried by its frame, or just produced. */
  lemma SetEncoderPacket(c: Core<nat>, st: StreamType, pc: EncoderPc<nat>, p: nat)
    ensures var c' := SetEncoder(c, st, pc);
            Holders(c', p) + InProduction(c'.video.encoder, p) + InProduction(c'.audio.encoder, p)
            + InEncoder(c.Get(st).encoder, p) + InProduction(c.Get(st).encoder, p)
            == Holders(c, p) + InProduction(c.video.encoder, p) + InProduction(c.audio.encoder, p)
               + InEncoder(pc, p) + InProduction(pc, p)
  {
    SetEncoderHolders(c, st, pc, p);
  }

  lemma DealPacket(s: PState, st: StreamType, outcome: Outcome, p: nat)
    requires CanStep(s.core, Deal(st, outcome))
    ensures PacketHolders(PStep(s, Deal(st, outcome)), p)
            == PacketHolders(s, p) + if outcome.Accumulated? then 0 else Is(|s.packets|, p)
  {
    SetEncoderPacket(s.core, st, NextEncoder(outcome, |s.packets|), p);
    OccursSnoc(s.freed, s.core.Get(st).encoder.raw, p);
    OccursSnoc(s.leaked, |s.packets|, p);
  }

  lemma WrapPacket(s: PState, st: StreamType, p: nat)
    requires CanStep(s.core, Wrap(st))
    ensures PacketHolders(PStep(s, Wrap(st)), p) == PacketHolders(s, p)
  {
    SetEncoderPacket(s.core, st, Encoded(s.core.Get(st).encoder.pkt), p);
  }

  lemma GiveUpPacket(s: PState, st: StreamType, p: nat)
    requires CanStep(s.core, EncoderGiveUp(st))
    ensures PacketHolders(PStep(s, EncoderGiveUp(st)), p) == PacketHolders(s, p)
  {
    SetEncoderPacket(s.core, st, EncoderIdle, p);
    OccursSnoc(s.freed, s.core.Get(st).encoder.frame, p);
  }

  lemma ReaderPacket(s: PState, e: Event, p: nat)
    requires e.Capture? || e.ReaderDiscard?
    requires CanStep(s.core, e)
    ensures PacketHolders(PStep(s, e), p) == PacketHolders(s, p) + if e.Capture? then Is(|s.packets|, p) else 0
  {
    if e.Capture? {
      SetReaderHolders(s.core, Captured(|s.packets|, e.target), p);
    } else {
      SetReaderHolders(s.core, ReaderIdle, p);
      OccursSnoc(s.freed, s.core.reader.frame, p);
    }
  }

  lemma MuxPacket(s: PState, e: Event, p: nat)
    requires s.core.mux.Muxing? && (e.MuxWrite? || e.MuxDrop?)
    ensures PacketHolders(PStep(s, e), p) == PacketHolders(s, p)
  {
    OccursSnoc(s.freed, s.core.mux.frame, p);
  }

  /** Every step of every thread keeps each packet in exactly one place: no packet is freed twice
      and none is freed while a frame still carries it. */
  lemma PacketsStep(s: PState, e: Event)
    requires PacketsConserved(s) && CanStep(s.core, e)
    ensures PacketsConserved(PStep(s, e))
  {
    forall p: nat
      ensures PacketHolders(PStep(s, e), p) == if p < |PStep(s, e).packets| then 1 else 0
    {
      assert PacketHolders(s, p) == if p < |s.packets| then 1 else 0;
      match e {
        case Route(m) =>
          MovePreservesHolders(s.core, m, p);
          MoveProduction(s.core, m, p);
        case Capture(_, _) | ReaderDiscard => ReaderPacket(s, e, p);
        case CleanNext => CleanPacket(s, p);
        case Deal(st, outcome) => DealPacket(s, st, outcome, p);
        case Wrap(st) => WrapPacket(s, st, p);
        case EncoderGiveUp(st) => GiveUpPacket(s, st, p);
        case MuxWrite | MuxDrop => MuxPacket(s, e, p);
      }
    }
  }
}
