// The frame pipeline itself: frames live on a heap, are recycled through a bounded pool, and are released
// through the function stored in them. Threads are interleaved step by step, up to teardown.
module Pipeline {
  import opened MediaFrames
  import opened FrameQueues
  import opened Routing
  import opened Timestamps
  import opened Payloads

  datatype ReleaseFn = DefaultRelease | ReleasePkt | ReleasePktBuffer
  datatype ReleaseArg = NoArg | Streamer | OfPacket(pkt: nat)

  /** A `mediaFrame` as allocated: the fields other code reads, and how to release it. */
  datatype FrameRecord = FrameRecord(frame: MediaFrame, release: ReleaseFn, releaseArg: ReleaseArg)

  /** `mediaFrameCreate(0)`: all fields zero. */
  const BLANK := FrameRecord(MediaFrame(NoBuffer, 0, 0, 0, 0), DefaultRelease, NoArg)

  datatype State = State(
    heap: seq<FrameRecord>,     // every frame ever created
    pool: seq<nat>,             // the recycled frames, top last
    poolCapacity: nat,
    freed: seq<nat>,            // frames given back to the allocator
    core: Core<nat>,
    packets: seq<Packet>,
    freedPackets: seq<nat>,
    leakedPackets: seq<nat>,
    firstPts: int,
    written: seq<Written>,
    fault: bool)                // a release function met a frame it was not made for

  /** `getMediaFrame`: the frame that the next caller gets. */
  function NextFrame(s: State): nat {
    if s.pool == [] then |s.heap| else s.pool[|s.pool| - 1]
  }

  /** `getMediaFrame` followed by the caller's writes to the frame. */
  function TakeFrame(s: State, fill: FrameRecord -> FrameRecord): State {
    if s.pool == [] then s.(heap := s.heap + [fill(BLANK)])
    else
      var f := NextFrame(s);
      s.(pool := s.pool[..|s.pool| - 1],
         heap := if f < |s.heap| then s.heap[f := fill(s.heap[f])] else s.heap)
  }

  /** `putMediaFrame`: back to the pool, or to the allocator when the pool is full. */
  function PutFrame(s: State, f: nat): State {
    if |s.pool| == s.poolCapacity then s.(freed := s.freed + [f]) else s.(pool := s.pool + [f])
  }

  /** `mediaFrameRelease`: dispatch on the function stored in the frame. */
  function Release(s: State, f: nat): State {
    if f >= |s.heap| then s.(fault := true)
    else
      var r := s.heap[f];
      match r.release
      case ReleasePkt =>
        if r.frame.pBuffer.PacketItself?
        then PutFrame(s.(freedPackets := s.freedPackets + [r.frame.pBuffer.pkt]), f)
        else s.(fault := true)
      case ReleasePktBuffer =>
        if r.releaseArg.OfPacket?
        then PutFrame(s.(freedPackets := s.freedPackets + [r.releaseArg.pkt]), f)
        else s.(fault := true)
      case DefaultRelease =>
        if r.frame.pBuffer == NoBuffer then s.(freed := s.freed + [f]) else s.(fault := true)
  }

  function FillCaptured(p: nat): FrameRecord -> FrameRecord {
    (r: FrameRecord) => FrameRecord(r.frame.(pBuffer := PacketItself(p)), ReleasePkt, Streamer)
  }

  function FillEncoded(p: nat, pkt: Packet): FrameRecord -> FrameRecord {
    (r: FrameRecord) => FrameRecord(
      r.frame.(pBuffer := PacketBytes(p), size := pkt.size, pts := pkt.pts, dts := pkt.dts, flag := pkt.flag),
      ReleasePktBuffer, OfPacket(p))
  }

  function FrameAt(s: State, f: nat): MediaFrame {
    if f < |s.heap| then s.heap[f].frame else BLANK.frame
  }

  /** The state in which the encoder has let go of the raw frame, before it is released. */
  function Dealt(s: State, st: StreamType, outcome: Outcome): State {
    s.(core := SetEncoder(s.core, st, NextEncoder(outcome, |s.packets|)),
       packets := s.packets + NewPackets(outcome),
       leakedPackets := if outcome.NoPacket? then s.leakedPackets + [|s.packets|] else s.leakedPackets)
  }

  function Step(s: State, e: Event): State
    requires CanStep(s.core, e)
  {
    var c := s.core;
    match e
    case Route(m) => s.(core := Moved(c, m))
    case Capture(pkt, target) =>
      TakeFrame(s, FillCaptured(|s.packets|)).(
        core := c.(reader := Captured(NextFrame(s), target)), packets := s.packets + [pkt])
    case ReaderDiscard => Release(s.(core := c.(reader := ReaderIdle)), c.reader.frame)
    case CleanNext =>
      var q := c.Get(c.reader.locked).enc;
      if q == [] then s.(core := c.(reader := ReaderIdle))
      else
        var (verdict, counter) := CleanStream(c.reader.locked, c.reader.counter, FrameAt(s, q[0]));
        if verdict.clean then Release(s.(core := CleanTake(c, counter)), q[0])
        else s.(core := c.(reader := ReaderIdle))
    case Deal(st, outcome) =>
      Release(Dealt(s, st, outcome), c.Get(st).encoder.raw)
    case Wrap(st) =>
      var p := c.Get(st).encoder.pkt;
      if p >= |s.packets| then s.(fault := true)
      else TakeFrame(s, FillEncoded(p, s.packets[p])).(core := SetEncoder(c, st, Encoded(NextFrame(s))))
    case EncoderGiveUp(st) => Release(s.(core := SetEncoder(c, st, EncoderIdle)), c.Get(st).encoder.frame)
    case MuxWrite =>
      var f := c.mux.frame;
      var first := NextOrigin(s.firstPts, FrameAt(s, f).dts);
      var frame := Normalised(first, FrameAt(s, f));
      Release(s.(core := c.(mux := MuxIdle), firstPts := first, written := s.written + [Written(c.mux.stream, frame)],
                 heap := if f < |s.heap| then s.heap[f := s.heap[f].(frame := frame)] else s.heap),
              f)
    case MuxDrop => Release(s.(core := c.(mux := MuxIdle)), c.mux.frame)
  }

  // ----- The invariant -----

  /** How many holders frame `f` has: the pool, the allocator, a queue, a thread, or nobody any more (lost). */
  ghost function FrameHolders(s: State, f: nat): nat {
    Occurs(s.pool, f) + Occurs(s.freed, f) + Holders(s.core, f)
  }

  ghost predicate OneHolder(s: State) {
    forall f: nat :: FrameHolders(s, f) == if f < |s.heap| then 1 else 0
  }

  /** A captured frame: it carries a packet and knows to free it. Its other fields may be stale. */
  ghost predicate IsCaptured(r: FrameRecord) {
    r.release == ReleasePkt && r.frame.pBuffer.PacketItself?
  }

  /** An encoded frame shows exactly its packet, whatever the frame was used for before. */
  ghost predicate IsEncoded(r: FrameRecord, packets: seq<Packet>) {
    && r.release == ReleasePktBuffer && r.releaseArg.OfPacket?
    && r.releaseArg.pkt < |packets|
    && r.frame == Shown(r.releaseArg.pkt, packets[r.releaseArg.pkt])
  }

  ghost predicate RolesOk(heap: seq<FrameRecord>, core: Core<nat>, packets: seq<Packet>) {
    && (forall f: nat | RawRole(core, f) :: f < |heap| && IsCaptured(heap[f]))
    && (forall f: nat | EncodedRole(core, f) :: f < |heap| && IsEncoded(heap[f], packets))
    && (core.video.encoder.Produced? ==> core.video.encoder.pkt < |packets|)
    && (core.audio.encoder.Produced? ==> core.audio.encoder.pkt < |packets|)
  }

  ghost predicate Inv(s: State) {
    OneHolder(s) && RolesOk(s.heap, s.core, s.packets) && |s.pool| <= s.poolCapacity && !s.fault
  }

  // ----- The abstraction -----

  /** The packet that a frame carries. */
  ghost function CarriedBy(r: FrameRecord): nat {
    match r.release
    case ReleasePkt => if r.frame.pBuffer.PacketItself? then r.frame.pBuffer.pkt else 0
    case ReleasePktBuffer => if r.releaseArg.OfPacket? then r.releaseArg.pkt else 0
    case DefaultRelease => 0
  }

  ghost function Carried(heap: seq<FrameRecord>): nat -> nat {
    (f: nat) => if f < |heap| then CarriedBy(heap[f]) else 0
  }

  /** The pipeline seen as packets only: the heap, the pool and the frames disappear. */
  ghost function View(s: State): PState {
    PState(MapCore(Carried(s.heap), s.core), s.packets, s.freedPackets, s.leakedPackets, s.firstPts, s.written)
  }

  lemma ViewFrame(heap: seq<FrameRecord>, heap': seq<FrameRecord>, core: Core<nat>)
    requires forall f: nat | Holders(core, f) > 0 ::
               f < |heap| && f < |heap'| && CarriedBy(heap[f]) == CarriedBy(heap'[f])
    ensures MapCore(Carried(heap'), core) == MapCore(Carried(heap), core)
  {
    MapCoreAgrees(Carried(heap'), Carried(heap), core);
  }

  /** `c'` is `c` without one holder of `f`. */
  ghost predicate Without(c: Core<nat>, c': Core<nat>, f: nat) {
    && (forall x: nat :: Holders(c', x) + Is(f, x) == Holders(c, x))
    && (forall x: nat | RawRole(c', x) :: RawRole(c, x))
    && (forall x: nat | EncodedRole(c', x) :: EncodedRole(c, x))
  }

  lemma PutFrameHolders(s: State, f: nat, x: nat)
    ensures FrameHolders(PutFrame(s, f), x) == FrameHolders(s, x) + Is(f, x)
  {
    OccursSnoc(s.pool, f, x);
    OccursSnoc(s.freed, f, x);
  }

  /** The stored release function finds the packet it expects. */
  ghost predicate Releasable(r: FrameRecord) {
    IsCaptured(r) || (r.release == ReleasePktBuffer && r.releaseArg.OfPacket?)
  }

  lemma ReleaseDispatch(s: State, f: nat)
    requires f < |s.heap| && Releasable(s.heap[f])
    ensures Release(s, f) == PutFrame(s.(freedPackets := s.freedPackets + [CarriedBy(s.heap[f])]), f)
  {
  }

  /** Releasing a frame that a thread held until now: its packet is freed, the frame is recycled,
      nothing else moves. `t` is the state in which the frame has left the thread's hand. */
  lemma ReleaseHeld(s: State, t: State, f: nat)
    requires Inv(s) && Without(s.core, t.core, f)
    requires t.pool == s.pool && t.freed == s.freed && t.poolCapacity == s.poolCapacity && !t.fault
    requires |t.heap| == |s.heap| && RolesOk(t.heap, t.core, t.packets)
    requires f < |t.heap| && Releasable(t.heap[f])
    ensures Inv(Release(t, f))
    ensures View(Release(t, f)) == View(t).(freed := t.freedPackets + [CarriedBy(t.heap[f])])
    ensures if |s.pool| < s.poolCapacity then Release(t, f).pool == s.pool + [f] && Release(t, f).freed == s.freed
            else Release(t, f).pool == s.pool && Release(t, f).freed == s.freed + [f]
  {
    ReleaseDispatch(t, f);
    forall x: nat
      ensures FrameHolders(Release(t, f), x) == if x < |s.heap| then 1 else 0
    {
      PutFrameHolders(t, f, x);
      assert FrameHolders(s, x) == if x < |s.heap| then 1 else 0;
      assert Holders(t.core, x) + Is(f, x) == Holders(s.core, x);
    }
  }

  /** Taking a frame for a new holder: it was in the pool or did not exist, so nobody else sees the writes. */
  lemma TakeUnheld(s: State, fill: FrameRecord -> FrameRecord)
    requires Inv(s)
    ensures var (t, f) := (TakeFrame(s, fill), NextFrame(s));
            && f < |t.heap| && |s.heap| <= |t.heap| && |t.pool| <= t.poolCapacity
            && (if s.pool == [] then f == |s.heap| && |t.heap| == f + 1 && t.pool == []
                else s.pool == t.pool + [f] && |t.heap| == |s.heap|)
            && (exists r :: t.heap[f] == fill(r))
            && (forall x: nat | Holders(s.core, x) > 0 :: x != f && x < |s.heap| && t.heap[x] == s.heap[x])
            && (forall x: nat :: Occurs(t.pool, x) + Occurs(t.freed, x) + Holders(s.core, x) + Is(f, x)
                                 == if x < |t.heap| then 1 else 0)
  {
    var (t, f) := (TakeFrame(s, fill), NextFrame(s));
    assert FrameHolders(s, f) == if f < |s.heap| then 1 else 0;
    if s.pool != [] {
      assert s.pool == t.pool + [f];
    }
    forall x: nat
      ensures Occurs(t.pool, x) + Occurs(t.freed, x) + Holders(s.core, x) + Is(f, x) == if x < |t.heap| then 1 else 0
      ensures Holders(s.core, x) > 0 ==> x < |s.heap|
    {
      assert FrameHolders(s, x) == if x < |s.heap| then 1 else 0;
      OccursSnoc(t.pool, f, x);
    }
  }

  lemma CanStepNatural(g: nat -> nat, c: Core<nat>, e: Event)
    ensures CanStep(c, e) <==> CanStep(MapCore(g, c), e)
  {
    if e.Route? {
      MoveIsNatural(g, c, e.move);
    }
  }

  ghost predicate StepOk(s: State, e: Event)
    requires CanStep(s.core, e)
  {
    && Inv(Step(s, e))
    && CanStep(View(s).core, e)
    && View(Step(s, e)) == PStep(View(s), e)
  }

  lemma RouteOk(s: State, m: Move)
    requires Inv(s) && CanMove(s.core, m)
    ensures StepOk(s, Route(m))
  {
    MoveIsNatural(Carried(s.heap), s.core, m);
    forall x: nat
      ensures Holders(Moved(s.core, m), x) == Holders(s.core, x)
      ensures RawRole(Moved(s.core, m), x) ==> RawRole(s.core, x)
      ensures EncodedRole(Moved(s.core, m), x) ==> EncodedRole(s.core, x)
    {
      MovePreservesHolders(s.core, m, x);
      MoveKeepsRoles(s.core, m, x);
    }
    forall x: nat
      ensures FrameHolders(Step(s, Route(m)), x) == if x < |s.heap| then 1 else 0
    {
      assert FrameHolders(s, x) == if x < |s.heap| then 1 else 0;
    }
    MoveKeepsRoles(s.core, m, 0);
  }

  /** `t` is `s` after frame `f` was taken, filled, and given to a thread. */
  lemma NewHolder(s: State, t: State, f: nat)
    requires Inv(s) && f < |t.heap| && |s.heap| <= |t.heap| && |t.pool| <= t.poolCapacity && !t.fault
    requires s.packets <= t.packets
    requires forall x: nat | Holders(s.core, x) > 0 :: x != f && x < |s.heap| && t.heap[x] == s.heap[x]
    requires forall x: nat :: Occurs(t.pool, x) + Occurs(t.freed, x) + Holders(s.core, x) + Is(f, x)
                              == if x < |t.heap| then 1 else 0
    requires forall x: nat :: Holders(t.core, x) == Holders(s.core, x) + Is(f, x)
    requires forall x: nat | RawRole(t.core, x) :: RawRole(s.core, x) || (x == f && IsCaptured(t.heap[f]))
    requires forall x: nat | EncodedRole(t.core, x) ::
               EncodedRole(s.core, x) || (x == f && IsEncoded(t.heap[f], t.packets))
    requires t.core.video.encoder.Produced? ==> t.core.video.encoder.pkt < |t.packets|
    requires t.core.audio.encoder.Produced? ==> t.core.audio.encoder.pkt < |t.packets|
    ensures Inv(t)
  {
    HeldByRole(s);
    forall x: nat
      ensures FrameHolders(t, x) == if x < |t.heap| then 1 else 0
    {
      assert Holders(t.core, x) == Holders(s.core, x) + Is(f, x);
    }
  }

  lemma CaptureRoles(c: Core<nat>, target: Option<StreamType>, f: nat, x: nat)
    requires c.reader.ReaderIdle?
    ensures var c' := c.(reader := Captured(f, target));
            && Holders(c', x) == Holders(c, x) + Is(f, x)
            && (RawRole(c', x) ==> RawRole(c, x) || x == f)
            && (EncodedRole(c', x) ==> EncodedRole(c, x))
  {
    SetReaderHolders(c, Captured(f, target), x);
  }

  lemma CaptureOk(s: State, pkt: Packet, target: Option<StreamType>)
    requires Inv(s) && s.core.reader.ReaderIdle?
    ensures StepOk(s, Capture(pkt, target))
  {
    var f := NextFrame(s);
    var t := Step(s, Capture(pkt, target));
    TakeUnheld(s, FillCaptured(|s.packets|));
    assert IsCaptured(t.heap[f]) && CarriedBy(t.heap[f]) == |s.packets|;
    forall x: nat
      ensures Holders(t.core, x) == Holders(s.core, x) + Is(f, x)
      ensures RawRole(t.core, x) ==> RawRole(s.core, x) || x == f
      ensures EncodedRole(t.core, x) ==> EncodedRole(s.core, x)
    {
      CaptureRoles(s.core, target, f, x);
    }
    NewHolder(s, t, f);
    ViewFrame(s.heap, t.heap, s.core);
  }

  lemma HeldByRole(s: State)
    ensures forall x: nat | RawRole(s.core, x) || EncodedRole(s.core, x) :: Holders(s.core, x) > 0
  {
    forall x: nat | RawRole(s.core, x) || EncodedRole(s.core, x)
      ensures Holders(s.core, x) > 0
    {
      RolesHold(s.core, x);
    }
  }

  lemma WrapRoles(c: Core<nat>, st: StreamType, f: nat, x: nat)
    requires c.Get(st).encoder.Produced?
    ensures var c' := SetEncoder(c, st, Encoded(f));
            && Holders(c', x) == Holders(c, x) + Is(f, x)
            && (RawRole(c', x) ==> RawRole(c, x))
            && (EncodedRole(c', x) ==> EncodedRole(c, x) || x == f)
  {
    SetEncoderHolders(c, st, Encoded(f), x);
  }

  lemma WrapOk(s: State, st: StreamType)
    requires Inv(s) && s.core.Get(st).encoder.Produced?
    ensures StepOk(s, Wrap(st))
  {
    var p := s.core.Get(st).encoder.pkt;
    var f := NextFrame(s);
    var t := Step(s, Wrap(st));
    TakeUnheld(s, FillEncoded(p, s.packets[p]));
    assert IsEncoded(t.heap[f], t.packets) && CarriedBy(t.heap[f]) == p;
    forall x: nat
      ensures Holders(t.core, x) == Holders(s.core, x) + Is(f, x)
      ensures RawRole(t.core, x) ==> RawRole(s.core, x)
      ensures EncodedRole(t.core, x) ==> EncodedRole(s.core, x) || x == f
    {
      WrapRoles(s.core, st, f, x);
    }
    NewHolder(s, t, f);
    WrapView(s, st);
  }

  /** The new frame carries the packet; what the other frames carry stays. */
  lemma WrapCarries(s: State, st: StreamType)
    requires Inv(s) && s.core.Get(st).encoder.Produced?
    ensures var t := Step(s, Wrap(st));
            && NextFrame(s) < |t.heap| && CarriedBy(t.heap[NextFrame(s)]) == s.core.Get(st).encoder.pkt
            && t == s.(heap := t.heap, pool := t.pool, core := SetEncoder(s.core, st, Encoded(NextFrame(s))))
            && MapCore(Carried(t.heap), s.core) == MapCore(Carried(s.heap), s.core)
  {
    var p := s.core.Get(st).encoder.pkt;
    TakeUnheld(s, FillEncoded(p, s.packets[p]));
    ViewFrame(s.heap, Step(s, Wrap(st)).heap, s.core);
  }

  lemma WrapView(s: State, st: StreamType)
    requires Inv(s) && s.core.Get(st).encoder.Produced?
    ensures CanStep(View(s).core, Wrap(st)) && View(Step(s, Wrap(st))) == PStep(View(s), Wrap(st))
  {
    WrapCarries(s, st);
    SetEncoderNatural(Carried(Step(s, Wrap(st)).heap), s.core, st, Encoded(NextFrame(s)));
  }

  lemma ReaderDiscardOk(s: State)
    requires Inv(s) && CanStep(s.core, ReaderDiscard)
    ensures StepOk(s, ReaderDiscard)
  {
    var t := s.(core := s.core.(reader := ReaderIdle));
    forall x: nat
      ensures Holders(t.core, x) + Is(s.core.reader.frame, x) == Holders(s.core, x)
    {
      SetReaderHolders(s.core, ReaderIdle, x);
    }
    assert RawRole(s.core, s.core.reader.frame);
    ReleaseHeld(s, t, s.core.reader.frame);
  }

  lemma DealRoles(c: Core<nat>, st: StreamType, next: EncoderPc<nat>, x: nat)
    requires c.Get(st).encoder.GotRaw? && (next.EncoderIdle? || next.Produced?)
    ensures var c' := SetEncoder(c, st, next);
            && Holders(c', x) + Is(c.Get(st).encoder.raw, x) == Holders(c, x)
            && (RawRole(c', x) ==> RawRole(c, x))
            && (EncodedRole(c', x) ==> EncodedRole(c, x))
  {
    SetEncoderHolders(c, st, next, x);
  }

  lemma DealReleases(s: State, st: StreamType, outcome: Outcome)
    requires Inv(s) && CanStep(s.core, Deal(st, outcome))
    ensures var (t, f) := (Dealt(s, st, outcome), s.core.Get(st).encoder.raw);
            && f < |t.heap|
            && Inv(Release(t, f))
            && View(Release(t, f)) == View(t).(freed := t.freedPackets + [CarriedBy(t.heap[f])])
  {
    var (t, f) := (Dealt(s, st, outcome), s.core.Get(st).encoder.raw);
    forall x: nat
      ensures Holders(t.core, x) + Is(f, x) == Holders(s.core, x)
      ensures RawRole(t.core, x) ==> RawRole(s.core, x)
      ensures EncodedRole(t.core, x) ==> EncodedRole(s.core, x)
    {
      DealRoles(s.core, st, NextEncoder(outcome, |s.packets|), x);
    }
    assert RawRole(s.core, f);
    ReleaseHeld(s, t, f);
  }

  lemma DealOk(s: State, st: StreamType, outcome: Outcome)
    requires Inv(s) && CanStep(s.core, Deal(st, outcome))
    ensures StepOk(s, Deal(st, outcome))
  {
    DealReleases(s, st, outcome);
    SetEncoderNatural(Carried(s.heap), s.core, st, NextEncoder(outcome, |s.packets|));
  }

  lemma EncoderGiveUpOk(s: State, st: StreamType)
    requires Inv(s) && CanStep(s.core, EncoderGiveUp(st))
    ensures StepOk(s, EncoderGiveUp(st))
  {
    var f := s.core.Get(st).encoder.frame;
    var t := s.(core := SetEncoder(s.core, st, EncoderIdle));
    forall x: nat
      ensures Holders(t.core, x) + Is(f, x) == Holders(s.core, x)
    {
      SetEncoderHolders(s.core, st, EncoderIdle, x);
    }
    assert EncodedRole(s.core, f);
    ReleaseHeld(s, t, f);
    SetEncoderNatural(Carried(s.heap), s.core, st, EncoderIdle);
  }

  lemma CleanNextOk(s: State)
    requires Inv(s) && s.core.reader.Cleaning?
    ensures StepOk(s, CleanNext)
  {
    var c := s.core;
    var q := c.Get(c.reader.locked).enc;
    var g := Carried(s.heap);
    if q == [] {
      IdleReaderOk(s);
    } else {
      assert EncodedRole(c, q[0]);
      assert FrameAt(s, q[0]) == ShownIn(s.packets, g(q[0]));
      var (verdict, counter) := CleanStream(c.reader.locked, c.reader.counter, FrameAt(s, q[0]));
      if verdict.clean {
        var t := s.(core := CleanTake(c, counter));
        forall x: nat
          ensures Holders(t.core, x) + Is(q[0], x) == Holders(c, x)
        {
          CleanTakeHolders(c, counter, x);
        }
        CleanTakeNatural(g, c, counter);
        ReleaseHeld(s, t, q[0]);
      } else {
        IdleReaderOk(s);
      }
    }
  }

  lemma IdleReaderRoles(c: Core<nat>, x: nat)
    requires c.reader.Cleaning?
    ensures RawRole(c.(reader := ReaderIdle), x) <==> RawRole(c, x)
    ensures EncodedRole(c.(reader := ReaderIdle), x) <==> EncodedRole(c, x)
  {
  }

  lemma IdleReaderOk(s: State)
    requires Inv(s) && s.core.reader.Cleaning?
    ensures Inv(s.(core := s.core.(reader := ReaderIdle)))
  {
    var t := s.(core := s.core.(reader := ReaderIdle));
    forall x: nat
      ensures FrameHolders(t, x) == if x < |s.heap| then 1 else 0
    {
      assert FrameHolders(s, x) == if x < |s.heap| then 1 else 0;
      SetReaderHolders(s.core, ReaderIdle, x);
    }
    forall x: nat
      ensures RawRole(t.core, x) <==> RawRole(s.core, x)
      ensures EncodedRole(t.core, x) <==> EncodedRole(s.core, x)
    {
      IdleReaderRoles(s.core, x);
    }
    assert RolesOk(t.heap, t.core, t.packets);
  }

  lemma CleanTakeNatural(g: nat -> nat, c: Core<nat>, counter: int)
    requires c.reader.Cleaning? && c.Get(c.reader.locked).enc != []
    ensures MapCore(g, CleanTake(c, counter)) == CleanTake(MapCore(g, c), counter)
    ensures forall x: nat | RawRole(CleanTake(c, counter), x) :: RawRole(c, x)
    ensures forall x: nat | EncodedRole(CleanTake(c, counter), x) :: EncodedRole(c, x)
  {
    var q := c.Get(c.reader.locked).enc;
    assert MapSeq(g, q[1..]) == MapSeq(g, q)[1..];
  }

  lemma MuxIdleHolders(c: Core<nat>, x: nat)
    requires c.mux.Muxing?
    ensures var idle := c.(mux := MuxIdle);
            && Holders(idle, x) + Is(c.mux.frame, x) == Holders(c, x)
            && (RawRole(idle, x) ==> RawRole(c, x)) && (EncodedRole(idle, x) ==> EncodedRole(c, x))
  {
  }

  lemma MuxLetsGo(c: Core<nat>)
    requires c.mux.Muxing?
    ensures Without(c, c.(mux := MuxIdle), c.mux.frame)
  {
    forall x: nat
      ensures Holders(c.(mux := MuxIdle), x) + Is(c.mux.frame, x) == Holders(c, x)
      ensures RawRole(c.(mux := MuxIdle), x) ==> RawRole(c, x)
      ensures EncodedRole(c.(mux := MuxIdle), x) ==> EncodedRole(c, x)
    {
      MuxIdleHolders(c, x);
    }
  }

  lemma MuxDropOk(s: State)
    requires Inv(s) && s.core.mux.Muxing?
    ensures StepOk(s, MuxDrop)
  {
    var f := s.core.mux.frame;
    assert EncodedRole(s.core, f);
    MuxLetsGo(s.core);
    assert s.heap == s.heap[f := s.heap[f].(frame := s.heap[f].frame)];
    MuxReleases(s, s.(core := s.core.(mux := MuxIdle)), f);
  }

  lemma MuxWriteOk(s: State)
    requires Inv(s) && s.core.mux.Muxing?
    ensures StepOk(s, MuxWrite)
  {
    var f := s.core.mux.frame;
    assert EncodedRole(s.core, f);
    assert FrameAt(s, f) == ShownIn(s.packets, Carried(s.heap)(f));
    var first := NextOrigin(s.firstPts, FrameAt(s, f).dts);
    var frame := Normalised(first, FrameAt(s, f));
    MuxLetsGo(s.core);
    MuxReleases(s, s.(core := s.core.(mux := MuxIdle), firstPts := first,
                      written := s.written + [Written(s.core.mux.stream, frame)],
                      heap := s.heap[f := s.heap[f].(frame := frame)]), f);
  }

  /** The muxer rewrites timestamps in place; the frame it rewrites is in nobody else's hands. */
  lemma MuxReleases(s: State, t: State, f: nat)
    requires Inv(s) && s.core.mux.Muxing? && f == s.core.mux.frame && f < |s.heap|
    requires Without(s.core, t.core, f) && t.core == s.core.(mux := MuxIdle)
    requires t.pool == s.pool && t.freed == s.freed && t.poolCapacity == s.poolCapacity && !t.fault
    requires t.packets == s.packets && t.freedPackets == s.freedPackets
    requires exists frame :: t.heap == s.heap[f := s.heap[f].(frame := frame)]
    ensures Inv(Release(t, f))
    ensures View(Release(t, f)) == View(t).(freed := t.freedPackets + [Carried(s.heap)(f)])
    ensures View(t).core == MapCore(Carried(s.heap), s.core).(mux := MuxIdle)
  {
    assert EncodedRole(s.core, f);
    assert FrameHolders(s, f) == 1;
    assert Holders(t.core, f) + Is(f, f) == Holders(s.core, f);
    forall x: nat | Holders(t.core, x) > 0
      ensures x != f && x < |s.heap| && t.heap[x] == s.heap[x]
    {
      assert FrameHolders(s, x) == if x < |s.heap| then 1 else 0;
      assert Holders(t.core, x) + Is(f, x) == Holders(s.core, x);
    }
    HeldByRole(t);
    ViewFrame(s.heap, t.heap, t.core);
    ReleaseHeld(s, t, f);
  }

  /** Each step of each thread keeps the invariant and is a step of the frameless reference pipeline. */
  lemma {:induction false} StepRefines(s: State, e: Event)
    requires Inv(s) && CanStep(s.core, e)
    ensures StepOk(s, e)
  {
    CanStepNatural(Carried(s.heap), s.core, e);
    match e {
      case Route(m) => RouteOk(s, m);
      case Capture(pkt, target) => CaptureOk(s, pkt, target);
      case ReaderDiscard => ReaderDiscardOk(s);
      case CleanNext => CleanNextOk(s);
      case Deal(st, outcome) => DealOk(s, st, outcome);
      case Wrap(st) => WrapOk(s, st);
      case EncoderGiveUp(st) => EncoderGiveUpOk(s, st);
      case MuxWrite => MuxWriteOk(s);
      case MuxDrop => MuxDropOk(s);
    }
  }

  // ----- Whole runs -----

  datatype Config = Config(rawVideo: nat, encVideo: nat, rawAudio: nat, encAudio: nat)

  function InitCore<F>(cfg: Config): Core<F> {
    Core(Lane([], cfg.rawVideo, [], cfg.encVideo, EncoderIdle), Lane([], cfg.rawAudio, [], cfg.encAudio, EncoderIdle),
         ReaderIdle, MuxIdle, [])
  }

  function Init(cfg: Config, poolCapacity: nat): State {
    State([], [], poolCapacity, [], InitCore(cfg), [], [], [], -1, [], false)
  }

  function PInit(cfg: Config): PState {
    PState(InitCore(cfg), [], [], [], -1, [])
  }

  /** Any interleaving of the reader, the two encoders and the muxer. */
  predicate Legal(s: State, es: seq<Event>)
    decreases |es|, 0
  {
    es == [] || (Legal(s, es[..|es| - 1]) && CanStep(Run(s, es[..|es| - 1]).core, es[|es| - 1]))
  }

  function Run(s: State, es: seq<Event>): State
    requires Legal(s, es)
    decreases |es|, 1
  {
    if es == [] then s else Step(Run(s, es[..|es| - 1]), es[|es| - 1])
  }

  predicate PLegal(s: PState, es: seq<Event>)
    decreases |es|, 0
  {
    es == [] || (PLegal(s, es[..|es| - 1]) && CanStep(PRun(s, es[..|es| - 1]).core, es[|es| - 1]))
  }

  function PRun(s: PState, es: seq<Event>): PState
    requires PLegal(s, es)
    decreases |es|, 1
  {
    if es == [] then s else PStep(PRun(s, es[..|es| - 1]), es[|es| - 1])
  }

  lemma InitRefines(cfg: Config, poolCapacity: nat)
    ensures Inv(Init(cfg, poolCapacity)) && View(Init(cfg, poolCapacity)) == PInit(cfg)
  {
    var s := Init(cfg, poolCapacity);
    assert MapSeq(Carried(s.heap), []) == [];
  }

  /** The recycling pipeline runs a schedule exactly when the reference pipeline does, ends in a state that
      shows the same packets in the same places, and never meets a wrong release. */
  lemma {:induction false} RunRefines(cfg: Config, poolCapacity: nat, es: seq<Event>)
    ensures Legal(Init(cfg, poolCapacity), es) <==> PLegal(PInit(cfg), es)
    ensures Legal(Init(cfg, poolCapacity), es) ==>
              var s := Run(Init(cfg, poolCapacity), es); Inv(s) && View(s) == PRun(PInit(cfg), es)
    decreases |es|
  {
    InitRefines(cfg, poolCapacity);
    if es != [] {
      var before := es[..|es| - 1];
      RunRefines(cfg, poolCapacity, before);
      if Legal(Init(cfg, poolCapacity), before) {
        var s := Run(Init(cfg, poolCapacity), before);
        CanStepNatural(Carried(s.heap), s.core, es[|es| - 1]);
        if CanStep(s.core, es[|es| - 1]) {
          StepRefines(s, es[|es| - 1]);
        }
      }
    }
  }

  lemma {:induction false} PacketsAlways(cfg: Config, es: seq<Event>)
    requires PLegal(PInit(cfg), es)
    ensures PacketsConserved(PRun(PInit(cfg), es))
    decreases |es|
  {
    if es != [] {
      PacketsAlways(cfg, es[..|es| - 1]);
      PacketsStep(PRun(PInit(cfg), es[..|es| - 1]), es[|es| - 1]);
    }
  }

  /** The frames in the threads' hands. */
  ghost function Hands(c: Core<nat>): seq<nat> {
    InHandOfEncoder(c.video.encoder) + InHandOfEncoder(c.audio.encoder) + InHandOfReader(c.reader) + InHandOfMux(c.mux)
  }

  ghost function InHandOfReader(pc: ReaderPc<nat>): seq<nat> {
    if pc.Captured? || pc.CaptureAsleep? then [pc.frame] else []
  }

  ghost function InHandOfMux(pc: MuxPc<nat>): seq<nat> {
    if pc.Muxing? then [pc.frame] else []
  }

  ghost function InHandOfEncoder(pc: EncoderPc<nat>): seq<nat> {
    match pc
    case GotRaw(x) => [x]
    case Encoded(x) => [x]
    case EncodedAsleep(x) => [x]
    case _ => []
  }

  ghost function Queued(c: Core<nat>): seq<nat> {
    c.video.raw + c.video.enc + c.audio.raw + c.audio.enc
  }

  lemma QueuedOccurs(c: Core<nat>, x: nat)
    ensures Occurs(Queued(c), x)
            == Occurs(c.video.raw, x) + Occurs(c.video.enc, x) + Occurs(c.audio.raw, x) + Occurs(c.audio.enc, x)
  {
    OccursConcat4(c.video.raw, c.video.enc, c.audio.raw, c.audio.enc, x);
  }

  lemma HandsOccurs(c: Core<nat>, x: nat)
    ensures Occurs(Hands(c), x)
            == InEncoder(c.video.encoder, x) + InEncoder(c.audio.encoder, x) + InReader(c.reader, x) + InMux(c.mux, x)
  {
    EncoderHandOccurs(c.video.encoder, x);
    EncoderHandOccurs(c.audio.encoder, x);
    OtherHandsOccur(c.reader, c.mux, x);
    OccursConcat4(InHandOfEncoder(c.video.encoder), InHandOfEncoder(c.audio.encoder),
                  InHandOfReader(c.reader), InHandOfMux(c.mux), x);
  }

  lemma OccursConcat4(p: seq<nat>, q: seq<nat>, r: seq<nat>, s: seq<nat>, x: nat)
    ensures Occurs(p + q + r + s, x) == Occurs(p, x) + Occurs(q, x) + Occurs(r, x) + Occurs(s, x)
  {
  }

  lemma EncoderHandOccurs(pc: EncoderPc<nat>, x: nat)
    ensures Occurs(InHandOfEncoder(pc), x) == InEncoder(pc, x)
  {
  }

  lemma OtherHandsOccur(reader: ReaderPc<nat>, mux: MuxPc<nat>, x: nat)
    ensures Occurs(InHandOfReader(reader), x) == InReader(reader, x)
    ensures Occurs(InHandOfMux(mux), x) == InMux(mux, x)
  {
  }

  lemma EachOnceCounts(q: seq<nat>, n: nat)
    requires forall x: nat :: Occurs(q, x) == if x < n then 1 else 0
    ensures |q| == n
  {
    var range := seq(n, i => i);
    forall x: nat
      ensures multiset(q)[x] == multiset(range)[x]
    {
      RangeOccurs(n, x);
      assert Occurs(q, x) == if x < n then 1 else 0;
    }
    assert multiset(q) == multiset(range);
    assert |multiset(q)| == |multiset(range)|;
  }

  lemma {:induction false} RangeOccurs(n: nat, x: nat)
    ensures multiset(seq(n, i => i))[x] == if x < n then 1 else 0
  {
    if n > 0 {
      RangeOccurs(n - 1, x);
      var shorter := seq(n - 1, i => i);
      var longer := seq(n, i => i);
      assert longer == shorter + [n - 1];
      OccursSnoc(shorter, n - 1, x);
    }
  }

  /** Linear ownership over every interleaving: each frame ever created has exactly one holder, so none is
      released twice, queued twice, or pooled while in use; and created == pooled + freed + queued + in hand + lost. */
  lemma {:induction false} OwnershipAlways(cfg: Config, poolCapacity: nat, es: seq<Event>)
    requires Legal(Init(cfg, poolCapacity), es)
    ensures var s := Run(Init(cfg, poolCapacity), es);
            && !s.fault
            && (forall f: nat :: FrameHolders(s, f) == if f < |s.heap| then 1 else 0)
            && |s.heap| == |s.pool| + |s.freed| + |Queued(s.core)| + |Hands(s.core)| + |s.core.lost|
            && PacketsConserved(View(s))
  {
    RunRefines(cfg, poolCapacity, es);
    PacketsAlways(cfg, es);
    var s := Run(Init(cfg, poolCapacity), es);
    HoldersCount(s);
  }

  /** Everything that can hold a frame, one after the other. */
  ghost function Everywhere(s: State): (all: seq<nat>)
    ensures |all| == |s.pool| + |s.freed| + |Queued(s.core)| + |Hands(s.core)| + |s.core.lost|
  {
    s.pool + s.freed + Queued(s.core) + (Hands(s.core) + s.core.lost)
  }

  lemma EverywhereOccurs(s: State, x: nat)
    ensures Occurs(Everywhere(s), x) == FrameHolders(s, x)
  {
    OccursConcat4(s.pool, s.freed, Queued(s.core), Hands(s.core) + s.core.lost, x);
    OccursConcat4(Hands(s.core), s.core.lost, [], [], x);
    assert Hands(s.core) + s.core.lost + [] + [] == Hands(s.core) + s.core.lost;
    QueuedOccurs(s.core, x);
    HandsOccurs(s.core, x);
  }

  lemma HoldersCount(s: State)
    requires OneHolder(s)
    ensures |s.heap| == |s.pool| + |s.freed| + |Queued(s.core)| + |Hands(s.core)| + |s.core.lost|
  {
    forall x: nat
      ensures Occurs(Everywhere(s), x) == if x < |s.heap| then 1 else 0
    {
      assert FrameHolders(s, x) == if x < |s.heap| then 1 else 0;
      EverywhereOccurs(s, x);
    }
    EachOnceCounts(Everywhere(s), |s.heap|);
  }

  /** Recycling is invisible: for any two pool sizes (0 recycles nothing) the same schedules are possible, and
      each gives the muxer the same output and leaves every packet in the same place. */
  lemma {:induction false} PoolIsInvisible(cfg: Config, poolA: nat, poolB: nat, es: seq<Event>)
    ensures Legal(Init(cfg, poolA), es) <==> Legal(Init(cfg, poolB), es)
    ensures Legal(Init(cfg, poolA), es) ==>
              && Run(Init(cfg, poolA), es).written == Run(Init(cfg, poolB), es).written
              && View(Run(Init(cfg, poolA), es)) == View(Run(Init(cfg, poolB), es))
  {
    RunRefines(cfg, poolA, es);
    RunRefines(cfg, poolB, es);
  }
}
