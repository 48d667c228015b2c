// The video drop policy across the whole pipeline: whether what is written on video can be decoded, over all
// interleavings of the reader with its cleaner, the encoders and the muxer.
module PipelineDrops {
  import opened MediaFrames
  import opened FrameQueues
  import opened Routing
  import opened Payloads
  import opened Pipeline
  import opened PipelineOrder

  /** The encoded video packets of a pipeline: handed to the muxer, queued, in the encoder's hand; `busy` while a
      clean that has already taken a packet holds the queue. */
  datatype Strand = Strand(delivered: seq<nat>, queue: seq<nat>, hand: seq<nat>, busy: bool)

  ghost function StrandOf(s: PState): Strand {
    Strand(WrittenOn(s.written, Video) + MuxHand(s.core.mux, Video), s.core.video.enc,
           EncodedHand(s.core.video.encoder), s.core.Locked(Video) && s.core.reader.counter > 0)
  }

  ghost predicate KeyPacket(packets: seq<Packet>, p: nat) {
    p < |packets| && packets[p].flag != 0
  }

  ghost predicate Adjacent(made: seq<nat>, p: nat, q: nat) {
    exists k :: 0 < k < |made| && made[k - 1] == p && made[k] == q
  }

  /** Every delta packet comes right after the packet that was encoded before it. */
  ghost predicate Follows(delivered: seq<nat>, made: seq<nat>, packets: seq<Packet>) {
    forall j | 0 <= j < |delivered| ::
      KeyPacket(packets, delivered[j]) || (j > 0 && Adjacent(made, delivered[j - 1], delivered[j]))
  }

  /** How many packets have left the queue. */
  ghost function Past(v: Strand, made: seq<nat>): int {
    |made| - |v.queue| - |v.hand|
  }

  /** The packet before the next one to leave the queue was not delivered. */
  ghost predicate Gap(v: Strand, made: seq<nat>) {
    var n := Past(v, made);
    n <= 0 || v.delivered == [] || v.delivered[|v.delivered| - 1] != made[n - 1]
  }

  /** Behind a gap that has reached the end of the queue, the encoder offers a key packet. */
  ghost predicate OffersKey(v: Strand, made: seq<nat>, packets: seq<Packet>) {
    Gap(v, made) && v.queue == [] && v.hand != [] ==> KeyPacket(packets, v.hand[0])
  }

  ghost predicate StrandOk(v: Strand, made: seq<nat>, packets: seq<Packet>) {
    && Past(v, made) >= 0
    && made == made[..Past(v, made)] + v.queue + v.hand
    && Follows(v.delivered, made, packets)
    && (Gap(v, made) && v.queue != [] && !v.busy ==> KeyPacket(packets, v.queue[0]))
  }

  // ----- One step -----

  /** The step keeps all video packets that are under way, but for the cleaner. */
  ghost predicate Undropped(s: PState, e: Event)
    requires CanStep(s.core, e)
  {
    e.CleanNext? || EncodedChain(PStep(s, e), Video) == EncodedChain(s, Video) + NewlyMade(e, Video, |s.packets|)
  }

  ghost predicate Unmoved(v: Strand, t: Strand, packets: seq<Packet>) {
    && t == v.(busy := t.busy)
    && (v.busy && !t.busy && v.queue != [] ==> KeyPacket(packets, v.queue[0]))
  }

  ghost predicate Dequeued(v: Strand, t: Strand) {
    v.queue != [] && !v.busy && t == v.(delivered := v.delivered + [v.queue[0]], queue := v.queue[1..])
  }

  ghost predicate Enqueued(v: Strand, t: Strand) {
    t == v.(queue := v.queue + v.hand, hand := [])
  }

  ghost predicate Cleaned(v: Strand, t: Strand) {
    v.queue != [] && t == v.(queue := v.queue[1..], busy := true)
  }

  /** What a step can do to the strand; `more` is what the encoder has just produced. */
  ghost predicate Moves(v: Strand, t: Strand, more: seq<nat>, packets: seq<Packet>) {
    if more != [] then v.hand == [] && t == v.(hand := more)
    else Unmoved(v, t, packets) || Dequeued(v, t) || Enqueued(v, t) || Cleaned(v, t)
  }

  ghost predicate CounterOk(s: PState) {
    s.core.reader.Cleaning? ==> s.core.reader.counter >= 0
  }

  lemma CounterStays(s: PState, e: Event)
    requires CanStep(s.core, e) && CounterOk(s)
    ensures CounterOk(PStep(s, e))
  {
  }

  lemma ChainIsStrand(s: PState)
    ensures var v := StrandOf(s); EncodedChain(s, Video) == v.delivered + v.queue + v.hand
  {
  }

  lemma MoveMoves(s: PState, m: Move)
    requires CanMove(s.core, m) && Undropped(s, Route(m))
    ensures Moves(StrandOf(s), StrandOf(PStep(s, Route(m))), [], s.packets)
  {
    var (v, t) := (StrandOf(s), StrandOf(PStep(s, Route(m))));
    ChainIsStrand(s);
    ChainIsStrand(PStep(s, Route(m)));
    assert |t.delivered| + |t.queue| + |t.hand| == |v.delivered| + |v.queue| + |v.hand|;
    if m.MuxDequeue? && m.st == Video {
      assert Dequeued(v, t);
    } else if (m.EncoderEnqueue? || m.EncoderResume?) && m.st == Video && t.hand == [] {
      assert Enqueued(v, t);
    } else {
      assert Unmoved(v, t, s.packets);
    }
  }

  lemma CleanMoves(s: PState)
    requires CanStep(s.core, CleanNext) && CounterOk(s)
    ensures Moves(StrandOf(s), StrandOf(PStep(s, CleanNext)), [], s.packets)
  {
    var (v, t) := (StrandOf(s), StrandOf(PStep(s, CleanNext)));
    if s.core.Locked(Video) && PStep(s, CleanNext).core.reader.Cleaning? {
      assert Cleaned(v, t);
    } else {
      assert Unmoved(v, t, s.packets);
    }
  }

  lemma WriteMoves(s: PState)
    requires s.core.mux.Muxing? && PacketsConserved(s)
    ensures StrandOf(PStep(s, MuxWrite)) == StrandOf(s)
  {
    MuxFrameKnown(s);
    WrittenSnoc(s.written, PStep(s, MuxWrite).written[|s.written|], Video);
  }

  lemma OtherMoves(s: PState, e: Event)
    requires CanStep(s.core, e) && Undropped(s, e) && !e.Route? && !e.CleanNext? && !e.MuxWrite?
    ensures Moves(StrandOf(s), StrandOf(PStep(s, e)), NewlyMade(e, Video, |s.packets|), s.packets)
  {
    var (v, t) := (StrandOf(s), StrandOf(PStep(s, e)));
    ChainIsStrand(s);
    ChainIsStrand(PStep(s, e));
    assert |t.delivered| + |t.queue| + |t.hand|
           == |v.delivered| + |v.queue| + |v.hand| + |NewlyMade(e, Video, |s.packets|)|;
    if NewlyMade(e, Video, |s.packets|) == [] {
      assert t == v;
    }
  }

  lemma StepMoves(s: PState, e: Event)
    requires CanStep(s.core, e) && Undropped(s, e) && PacketsConserved(s) && CounterOk(s)
    ensures Moves(StrandOf(s), StrandOf(PStep(s, e)), NewlyMade(e, Video, |s.packets|), s.packets)
  {
    match e {
      case Route(m) => MoveMoves(s, m);
      case CleanNext => CleanMoves(s);
      case MuxWrite => WriteMoves(s);
      case _ => OtherMoves(s, e);
    }
  }

  // ----- What steps keep -----

  lemma AdjacentLater(made: seq<nat>, more: seq<nat>, p: nat, q: nat)
    requires Adjacent(made, p, q)
    ensures Adjacent(made + more, p, q)
  {
    var k :| 0 < k < |made| && made[k - 1] == p && made[k] == q;
    assert (made + more)[k - 1] == p && (made + more)[k] == q;
  }

  lemma FollowsLater(delivered: seq<nat>, made: seq<nat>, more: seq<nat>, packets: seq<Packet>, packets': seq<Packet>)
    requires Follows(delivered, made, packets) && packets <= packets'
    ensures Follows(delivered, made + more, packets')
  {
    forall j | 0 <= j < |delivered|
      ensures KeyPacket(packets', delivered[j]) || (j > 0 && Adjacent(made + more, delivered[j - 1], delivered[j]))
    {
      if !KeyPacket(packets, delivered[j]) {
        AdjacentLater(made, more, delivered[j - 1], delivered[j]);
      }
    }
  }

  lemma ProducedKeeps(v: Strand, t: Strand, made: seq<nat>, more: seq<nat>, packets: seq<Packet>, packets': seq<Packet>)
    requires StrandOk(v, made, packets) && v.hand == [] && t == v.(hand := more) && packets <= packets'
    ensures StrandOk(t, made + more, packets')
  {
    FollowsLater(v.delivered, made, more, packets, packets');
    assert Past(t, made + more) == Past(v, made);
    assert (made + more)[..Past(v, made)] == made[..Past(v, made)];
  }

  lemma DequeuedKeeps(v: Strand, t: Strand, made: seq<nat>, packets: seq<Packet>)
    requires StrandOk(v, made, packets) && Dequeued(v, t)
    ensures StrandOk(t, made, packets) && !Gap(t, made)
  {
    var n := Past(v, made);
    assert made[n] == v.queue[0];
    assert made[..n + 1] == made[..n] + [v.queue[0]] && v.queue == [v.queue[0]] + v.queue[1..];
    if !Gap(v, made) {
      assert made[n - 1] == v.delivered[|v.delivered| - 1];
      assert Adjacent(made, v.delivered[|v.delivered| - 1], v.queue[0]);
    }
  }

  lemma EnqueuedKeeps(v: Strand, t: Strand, made: seq<nat>, packets: seq<Packet>)
    requires StrandOk(v, made, packets) && OffersKey(v, made, packets) && Enqueued(v, t)
    ensures StrandOk(t, made, packets)
  {
    assert Past(t, made) == Past(v, made);
    assert made[..Past(v, made)] + v.queue + v.hand == made[..Past(v, made)] + (v.queue + v.hand) + [];
  }

  lemma CleanedKeeps(v: Strand, t: Strand, made: seq<nat>, packets: seq<Packet>)
    requires StrandOk(v, made, packets) && Cleaned(v, t)
    ensures StrandOk(t, made, packets)
  {
    var n := Past(v, made);
    assert made[n] == v.queue[0];
    assert made[..n + 1] == made[..n] + [v.queue[0]] && v.queue == [v.queue[0]] + v.queue[1..];
  }

  lemma {:induction false} StrandKeeps(
    v: Strand, t: Strand, made: seq<nat>, more: seq<nat>, packets: seq<Packet>, packets': seq<Packet>)
    requires StrandOk(v, made, packets) && OffersKey(v, made, packets)
    requires Moves(v, t, more, packets) && packets <= packets'
    ensures StrandOk(t, made + more, packets')
  {
    if more != [] {
      ProducedKeeps(v, t, made, more, packets, packets');
    } else {
      if Dequeued(v, t) {
        DequeuedKeeps(v, t, made, packets);
      } else if Cleaned(v, t) {
        CleanedKeeps(v, t, made, packets);
      } else if Enqueued(v, t) {
        EnqueuedKeeps(v, t, made, packets);
      }
      assert made + more == made;
      FollowsLater(t.delivered, made, more, packets, packets');
    }
  }

  // ----- Whole runs -----

  ghost predicate UndroppedRun(cfg: Config, es: seq<Event>)
    requires PLegal(PInit(cfg), es)
  {
    es == [] ||
    var before := es[..|es| - 1];
    UndroppedRun(cfg, before) && Undropped(PRun(PInit(cfg), before), es[|es| - 1])
  }

  ghost predicate OffersKeyNow(cfg: Config, es: seq<Event>)
    requires PLegal(PInit(cfg), es)
  {
    OffersKey(StrandOf(PRun(PInit(cfg), es)), Made(es, Video), PacketsOf(es))
  }

  ghost predicate OfferedKeyBefore(cfg: Config, es: seq<Event>)
    requires PLegal(PInit(cfg), es)
  {
    es == [] || (OffersKeyNow(cfg, es[..|es| - 1]) && OfferedKeyBefore(cfg, es[..|es| - 1]))
  }

  /** At every moment of the run, a key packet is offered when one is needed. */
  ghost predicate AlwaysOffersKey(cfg: Config, es: seq<Event>)
    requires PLegal(PInit(cfg), es)
  {
    OfferedKeyBefore(cfg, es) && OffersKeyNow(cfg, es)
  }

  ghost predicate RunOk(cfg: Config, es: seq<Event>)
    requires PLegal(PInit(cfg), es)
  {
    var s := PRun(PInit(cfg), es);
    && StrandOk(StrandOf(s), Made(es, Video), PacketsOf(es))
    && PacketsConserved(s) && CounterOk(s) && s.packets == PacketsOf(es)
    && s.core.video.encCapacity == cfg.encVideo
  }

  lemma CapacityStays(s: PState, e: Event)
    requires CanStep(s.core, e)
    ensures PStep(s, e).core.video.encCapacity == s.core.video.encCapacity
  {
  }

  lemma RunOkStep(cfg: Config, es: seq<Event>)
    requires es != [] && PLegal(PInit(cfg), es) && RunOk(cfg, es[..|es| - 1]) && OffersKeyNow(cfg, es[..|es| - 1])
    requires Undropped(PRun(PInit(cfg), es[..|es| - 1]), es[|es| - 1])
    ensures RunOk(cfg, es)
  {
    var (before, e) := (es[..|es| - 1], es[|es| - 1]);
    var s := PRun(PInit(cfg), before);
    PacketsAre(cfg, es);
    PacketsStep(s, e);
    CounterStays(s, e);
    CapacityStays(s, e);
    StepMoves(s, e);
    StrandKeeps(StrandOf(s), StrandOf(PStep(s, e)), Made(before, Video), NewlyMade(e, Video, |s.packets|),
                PacketsOf(before), PacketsOf(es));
  }

  lemma {:induction false} RunOkAtStart(cfg: Config, es: seq<Event>)
    requires es == []
    ensures RunOk(cfg, es)
  {
    PacketsAlways(cfg, es);
    var v := StrandOf(PRun(PInit(cfg), es));
    assert v == Strand([], [], [], false);
    assert Made(es, Video) == [];
  }

  lemma {:induction false} RunOkAlways(cfg: Config, es: seq<Event>)
    requires PLegal(PInit(cfg), es) && UndroppedRun(cfg, es) && OfferedKeyBefore(cfg, es)
    ensures RunOk(cfg, es)
    decreases |es|
  {
    if es == [] {
      RunOkAtStart(cfg, es);
    } else {
      RunOkAlways(cfg, es[..|es| - 1]);
      RunOkStep(cfg, es);
    }
  }

  // ----- Draining -----

  /** Steps that neither make nor lose a video packet. */
  ghost predicate KeepsChain(s: PState, ds: seq<Event>)
    requires PLegal(s, ds)
  {
    ds == [] ||
    var before := ds[..|ds| - 1];
    KeepsChain(s, before) && EncodedChain(PRun(s, ds), Video) == EncodedChain(PRun(s, before), Video)
  }

  /** Whatever is still written of the packets under way in `s`, what is written on video is decodable. */
  ghost predicate DrainsDecodable(s: PState, made: seq<nat>) {
    forall ds | PLegal(s, ds) && KeepsChain(s, ds) ::
      Follows(WrittenOn(PRun(s, ds).written, Video), made, PRun(s, ds).packets)
  }

  /** At every moment of the run. */
  ghost predicate AlwaysDrainsDecodable(cfg: Config, es: seq<Event>)
    requires PLegal(PInit(cfg), es)
  {
    && DrainsDecodable(PRun(PInit(cfg), es), Made(es, Video))
    && (es != [] ==> AlwaysDrainsDecodable(cfg, es[..|es| - 1]))
  }

  ghost predicate DrainOk(s: PState, made: seq<nat>) {
    && StrandOk(StrandOf(s), made, s.packets) && OffersKey(StrandOf(s), made, s.packets)
    && PacketsConserved(s) && CounterOk(s)
  }

  lemma KeepingMakesNothing(s: PState, e: Event)
    requires CanStep(s.core, e) && EncodedChain(PStep(s, e), Video) == EncodedChain(s, Video)
    ensures NewlyMade(e, Video, |s.packets|) == []
    ensures Undropped(s, e)
    ensures !Cleaned(StrandOf(s), StrandOf(PStep(s, e)))
  {
    if e.Deal? {
      EncodedKept(s, e, Video);
    }
    ChainIsStrand(s);
    ChainIsStrand(PStep(s, e));
    assert |EncodedChain(PStep(s, e), Video)| == |EncodedChain(s, Video)|;
  }

  lemma KeyStillOffered(v: Strand, t: Strand, made: seq<nat>, packets: seq<Packet>, packets': seq<Packet>)
    requires StrandOk(v, made, packets) && OffersKey(v, made, packets)
    requires Moves(v, t, [], packets) && !Cleaned(v, t) && packets <= packets'
    ensures OffersKey(t, made, packets')
  {
    if Dequeued(v, t) {
      DequeuedKeeps(v, t, made, packets);
    }
  }

  lemma DrainStep(s: PState, made: seq<nat>, e: Event)
    requires DrainOk(s, made) && CanStep(s.core, e) && EncodedChain(PStep(s, e), Video) == EncodedChain(s, Video)
    ensures DrainOk(PStep(s, e), made)
  {
    var t := PStep(s, e);
    KeepingMakesNothing(s, e);
    PacketsAdded(s, e);
    PacketsStep(s, e);
    CounterStays(s, e);
    StepMoves(s, e);
    StrandKeeps(StrandOf(s), StrandOf(t), made, [], s.packets, t.packets);
    KeyStillOffered(StrandOf(s), StrandOf(t), made, s.packets, t.packets);
    assert made + [] == made;
  }

  lemma {:induction false} DrainStaysOk(s: PState, made: seq<nat>, ds: seq<Event>)
    requires DrainOk(s, made) && PLegal(s, ds) && KeepsChain(s, ds)
    ensures DrainOk(PRun(s, ds), made)
    decreases |ds|
  {
    if ds != [] {
      DrainStaysOk(s, made, ds[..|ds| - 1]);
      DrainStep(PRun(s, ds[..|ds| - 1]), made, ds[|ds| - 1]);
    }
  }

  lemma FollowsPrefix(d: seq<nat>, more: seq<nat>, made: seq<nat>, packets: seq<Packet>)
    requires Follows(d + more, made, packets)
    ensures Follows(d, made, packets)
  {
    forall j | 0 <= j < |d|
      ensures KeyPacket(packets, d[j]) || (j > 0 && Adjacent(made, d[j - 1], d[j]))
    {
      assert (d + more)[j] == d[j] && (j > 0 ==> (d + more)[j - 1] == d[j - 1]);
    }
  }

  lemma DrainsFollow(s: PState, made: seq<nat>)
    requires DrainOk(s, made)
    ensures DrainsDecodable(s, made)
  {
    forall ds | PLegal(s, ds) && KeepsChain(s, ds)
      ensures Follows(WrittenOn(PRun(s, ds).written, Video), made, PRun(s, ds).packets)
    {
      var t := PRun(s, ds);
      DrainStaysOk(s, made, ds);
      FollowsPrefix(WrittenOn(t.written, Video), MuxHand(t.core.mux, Video), made, t.packets);
    }
  }

  // ----- The condition is exact -----

  /** One more step that keeps the chain. */
  lemma Drain(s: PState, ds: seq<Event>, e: Event) returns (ds': seq<Event>)
    requires PLegal(s, ds) && KeepsChain(s, ds) && CanStep(PRun(s, ds).core, e)
    requires EncodedChain(PStep(PRun(s, ds), e), Video) == EncodedChain(PRun(s, ds), Video)
    ensures PLegal(s, ds') && KeepsChain(s, ds') && PRun(s, ds') == PStep(PRun(s, ds), e)
  {
    ds' := ds + [e];
    assert ds'[..|ds|] == ds;
  }

  /** What the drain has to do with one packet `x` that the encoder holds behind delivered ones. */
  ghost predicate LastInHand(s: PState, delivered: seq<nat>, x: nat) {
    && StrandOf(s).delivered == delivered && s.core.video.enc == [] && EncodedHand(s.core.video.encoder) == [x]
    && s.core.video.encCapacity > 0 && PacketsConserved(s)
  }

  lemma Unlock(s: PState, ds: seq<Event>, delivered: seq<nat>, x: nat) returns (ds': seq<Event>)
    requires PLegal(s, ds) && KeepsChain(s, ds) && LastInHand(PRun(s, ds), delivered, x)
    ensures PLegal(s, ds') && KeepsChain(s, ds') && LastInHand(PRun(s, ds'), delivered, x)
    ensures !PRun(s, ds').core.Locked(Video) && PRun(s, ds').packets == PRun(s, ds).packets
  {
    ds' := ds;
    if PRun(s, ds).core.Locked(Video) {
      PacketsStep(PRun(s, ds), CleanNext);
      ds' := Drain(s, ds, CleanNext);
    }
  }

  lemma Offer(s: PState, ds: seq<Event>, delivered: seq<nat>, x: nat) returns (ds': seq<Event>)
    requires PLegal(s, ds) && KeepsChain(s, ds) && LastInHand(PRun(s, ds), delivered, x)
    requires !PRun(s, ds).core.Locked(Video)
    ensures PLegal(s, ds') && KeepsChain(s, ds') && LastInHand(PRun(s, ds'), delivered, x)
    ensures !PRun(s, ds').core.Locked(Video) && PRun(s, ds').packets == PRun(s, ds).packets
    ensures PRun(s, ds').core.video.encoder == Encoded(x)
  {
    ds' := ds;
    var pc := PRun(s, ds).core.video.encoder;
    if pc.Produced? {
      PacketsStep(PRun(s, ds), Wrap(Video));
      ds' := Drain(s, ds, Wrap(Video));
    } else if pc.EncodedAsleep? {
      PacketsStep(PRun(s, ds), Route(EncoderRetry(Video)));
      ds' := Drain(s, ds, Route(EncoderRetry(Video)));
    }
  }

  /** The packet alone in the queue. */
  ghost predicate LastInQueue(s: PState, delivered: seq<nat>, x: nat) {
    && StrandOf(s).delivered == delivered && s.core.video.enc == [x] && EncodedHand(s.core.video.encoder) == []
    && !s.core.Locked(Video) && PacketsConserved(s)
  }

  lemma EnqueueLast(s: PState, ds: seq<Event>, delivered: seq<nat>, x: nat) returns (ds': seq<Event>)
    requires PLegal(s, ds) && KeepsChain(s, ds) && LastInHand(PRun(s, ds), delivered, x)
    requires !PRun(s, ds).core.Locked(Video) && PRun(s, ds).core.video.encoder == Encoded(x)
    ensures PLegal(s, ds') && KeepsChain(s, ds') && LastInQueue(PRun(s, ds'), delivered, x)
    ensures PRun(s, ds').packets == PRun(s, ds).packets
  {
    var (t, e) := (PRun(s, ds), Route(EncoderEnqueue(Video)));
    PacketsStep(t, e);
    ChainIsStrand(t);
    ChainIsStrand(PStep(t, e));
    ds' := Drain(s, ds, e);
  }

  lemma FreeMux(s: PState, ds: seq<Event>, delivered: seq<nat>, x: nat) returns (ds': seq<Event>)
    requires PLegal(s, ds) && KeepsChain(s, ds) && LastInQueue(PRun(s, ds), delivered, x)
    ensures PLegal(s, ds') && KeepsChain(s, ds') && LastInQueue(PRun(s, ds'), delivered, x)
    ensures PRun(s, ds').core.mux.MuxIdle? && PRun(s, ds').packets == PRun(s, ds).packets
  {
    ds' := ds;
    var t := PRun(s, ds);
    if t.core.mux.Muxing? {
      PacketsStep(t, MuxWrite);
      WriteMoves(t);
      ChainIsStrand(t);
      ChainIsStrand(PStep(t, MuxWrite));
      ds' := Drain(s, ds, MuxWrite);
    }
  }

  /** The packet in the muxer's hand. */
  ghost predicate LastInMux(s: PState, delivered: seq<nat>, x: nat) {
    s.core.mux == Muxing(Video, x) && WrittenOn(s.written, Video) == delivered && PacketsConserved(s)
  }

  lemma DequeueLast(s: PState, ds: seq<Event>, delivered: seq<nat>, x: nat) returns (ds': seq<Event>)
    requires PLegal(s, ds) && KeepsChain(s, ds) && LastInQueue(PRun(s, ds), delivered, x)
    requires PRun(s, ds).core.mux.MuxIdle?
    ensures PLegal(s, ds') && KeepsChain(s, ds') && LastInMux(PRun(s, ds'), delivered, x)
    ensures PRun(s, ds').packets == PRun(s, ds).packets
  {
    var (t, e) := (PRun(s, ds), Route(MuxDequeue(Video)));
    PacketsStep(t, e);
    ChainIsStrand(t);
    ChainIsStrand(PStep(t, e));
    ds' := Drain(s, ds, e);
  }

  lemma WriteLast(s: PState, ds: seq<Event>, delivered: seq<nat>, x: nat) returns (ds': seq<Event>)
    requires PLegal(s, ds) && KeepsChain(s, ds) && LastInMux(PRun(s, ds), delivered, x)
    ensures PLegal(s, ds') && KeepsChain(s, ds') && PRun(s, ds').packets == PRun(s, ds).packets
    ensures WrittenOn(PRun(s, ds').written, Video) == delivered + [x]
  {
    var t := PRun(s, ds);
    WriteMoves(t);
    ChainIsStrand(t);
    ChainIsStrand(PStep(t, MuxWrite));
    HandWritten(t, delivered, x);
    ds' := Drain(s, ds, MuxWrite);
  }

  lemma HandWritten(s: PState, delivered: seq<nat>, x: nat)
    requires LastInMux(s, delivered, x)
    ensures WrittenOn(PStep(s, MuxWrite).written, Video) == delivered + [x]
  {
    MuxFrameKnown(s);
    WrittenSnoc(s.written, PStep(s, MuxWrite).written[|s.written|], Video);
  }

  /** Whatever the threads are doing, the packet in the encoder's hand can still be written, and nothing else. */
  lemma LastWritten(s: PState, delivered: seq<nat>, x: nat) returns (ds: seq<Event>)
    requires LastInHand(s, delivered, x)
    ensures PLegal(s, ds) && KeepsChain(s, ds) && PRun(s, ds).packets == s.packets
    ensures WrittenOn(PRun(s, ds).written, Video) == delivered + [x]
  {
    ds := [];
    ds := Unlock(s, ds, delivered, x);
    ds := Offer(s, ds, delivered, x);
    ds := EnqueueLast(s, ds, delivered, x);
    ds := FreeMux(s, ds, delivered, x);
    ds := DequeueLast(s, ds, delivered, x);
    ds := WriteLast(s, ds, delivered, x);
  }

  ghost predicate Ascending(ids: seq<nat>, bound: nat) {
    && (forall i, j | 0 <= i < j < |ids| :: ids[i] < ids[j])
    && (forall i | 0 <= i < |ids| :: ids[i] < bound)
  }

  lemma {:induction false} MadeAscending(es: seq<Event>)
    ensures Ascending(Made(es, Video), |PacketsOf(es)|)
  {
    if es != [] {
      MadeAscending(es[..|es| - 1]);
      AscendingSnoc(Made(es[..|es| - 1], Video), |PacketsOf(es[..|es| - 1])|);
    }
  }

  lemma AscendingSnoc(ids: seq<nat>, n: nat)
    requires Ascending(ids, n)
    ensures Ascending(ids + [n], n + 1)
  {
  }

  /** A delta packet behind a gap does not follow. */
  lemma GapShows(v: Strand, made: seq<nat>, packets: seq<Packet>, x: nat)
    requires StrandOk(v, made, packets) && Gap(v, made) && v.queue == [] && v.hand == [x] && !KeyPacket(packets, x)
    requires forall i, j | 0 <= i < j < |made| :: made[i] < made[j]
    ensures !Follows(v.delivered + [x], made, packets)
  {
    var (d, n) := (v.delivered, Past(v, made));
    assert made[n] == x && (d + [x])[|d|] == x;
    assert d != [] ==> (d + [x])[|d| - 1] == d[|d| - 1];
    forall k | 0 < k < |made| && made[k] == x
      ensures k == n
    {
    }
  }

  lemma OneInHand(pc: EncoderPc<nat>)
    ensures |EncodedHand(pc)| <= 1
  {
  }

  /** Without a key packet where one is needed, a drain writes a delta packet without its predecessor. */
  lemma UnkeyedDrain(cfg: Config, es: seq<Event>)
    requires cfg.encVideo > 0 && PLegal(PInit(cfg), es) && RunOk(cfg, es) && !OffersKeyNow(cfg, es)
    ensures !DrainsDecodable(PRun(PInit(cfg), es), Made(es, Video))
  {
    var s := PRun(PInit(cfg), es);
    var v := StrandOf(s);
    OneInHand(s.core.video.encoder);
    var x := v.hand[0];
    assert v.hand == [x];
    MadeAscending(es);
    GapShows(v, Made(es, Video), s.packets, x);
    var ds := LastWritten(s, v.delivered, x);
  }

  lemma KeyedDrains(cfg: Config, es: seq<Event>)
    requires PLegal(PInit(cfg), es) && RunOk(cfg, es) && OffersKeyNow(cfg, es)
    ensures DrainsDecodable(PRun(PInit(cfg), es), Made(es, Video))
  {
    DrainsFollow(PRun(PInit(cfg), es), Made(es, Video));
  }

  /** Over all interleavings of the pipeline that lose video packets only to the cleaner: what is written on video is
      decodable, at any moment and whatever of the packets under way is still written, if and only if the encoder
      offers a key packet each time a gap has reached the end of the queue. */
  lemma {:induction false} WrittenDecodableIff(cfg: Config, es: seq<Event>)
    requires cfg.encVideo > 0 && PLegal(PInit(cfg), es) && UndroppedRun(cfg, es)
    ensures AlwaysDrainsDecodable(cfg, es) <==> AlwaysOffersKey(cfg, es)
    decreases |es|
  {
    if es != [] {
      WrittenDecodableIff(cfg, es[..|es| - 1]);
    }
    if OfferedKeyBefore(cfg, es) {
      RunOkAlways(cfg, es);
      if OffersKeyNow(cfg, es) {
        KeyedDrains(cfg, es);
      } else {
        UnkeyedDrain(cfg, es);
      }
    }
  }

  /** The same for the frames that the recycling pipeline writes, with any pool. */
  lemma {:induction false} WrittenDecodable(cfg: Config, poolCapacity: nat, es: seq<Event>)
    requires Legal(Init(cfg, poolCapacity), es)
    ensures PLegal(PInit(cfg), es)
    ensures UndroppedRun(cfg, es) && AlwaysOffersKey(cfg, es) ==>
              Follows(WrittenOn(Run(Init(cfg, poolCapacity), es).written, Video), Made(es, Video), PacketsOf(es))
  {
    RunRefines(cfg, poolCapacity, es);
    if UndroppedRun(cfg, es) && AlwaysOffersKey(cfg, es) {
      var s := PRun(PInit(cfg), es);
      RunOkAlways(cfg, es);
      FollowsPrefix(WrittenOn(s.written, Video), MuxHand(s.core.mux, Video), Made(es, Video), PacketsOf(es));
    }
  }

  // ----- Cleans that never empty the queue -----

  /** No clean step takes the last packet of the video queue. */
  ghost predicate NeverEmptied(cfg: Config, es: seq<Event>)
    requires PLegal(PInit(cfg), es)
  {
    es == [] ||
    var s := PRun(PInit(cfg), es[..|es| - 1]);
    && NeverEmptied(cfg, es[..|es| - 1])
    && (es[|es| - 1].CleanNext? && s.core.video.enc != [] ==> PStep(s, CleanNext).core.video.enc != [])
  }

  ghost predicate GapOnlyAtStart(v: Strand, made: seq<nat>) {
    Gap(v, made) && v.queue == [] ==> Past(v, made) == 0
  }

  lemma GapStaysAtStart(v: Strand, t: Strand, made: seq<nat>, more: seq<nat>, packets: seq<Packet>)
    requires StrandOk(v, made, packets) && GapOnlyAtStart(v, made) && Moves(v, t, more, packets)
    requires Cleaned(v, t) ==> t.queue != []
    ensures GapOnlyAtStart(t, made + more)
  {
    if more == [] {
      assert made + more == made;
      if Dequeued(v, t) {
        DequeuedKeeps(v, t, made, packets);
      }
    } else {
      assert Past(t, made + more) == Past(v, made);
    }
  }

  lemma GapOnlyAtStartStep(cfg: Config, es: seq<Event>)
    requires es != [] && PLegal(PInit(cfg), es) && UndroppedRun(cfg, es) && NeverEmptied(cfg, es)
    requires RunOk(cfg, es[..|es| - 1])
    requires GapOnlyAtStart(StrandOf(PRun(PInit(cfg), es[..|es| - 1])), Made(es[..|es| - 1], Video))
    ensures GapOnlyAtStart(StrandOf(PRun(PInit(cfg), es)), Made(es, Video))
  {
    var (before, e) := (es[..|es| - 1], es[|es| - 1]);
    var s := PRun(PInit(cfg), before);
    var (v, t) := (StrandOf(s), StrandOf(PStep(s, e)));
    StepMoves(s, e);
    if Cleaned(v, t) && !e.CleanNext? {
      ChainIsStrand(s);
      ChainIsStrand(PStep(s, e));
    }
    GapStaysAtStart(v, t, Made(before, Video), NewlyMade(e, Video, |s.packets|), s.packets);
  }

  lemma FirstKeyOffered(cfg: Config, es: seq<Event>)
    requires PLegal(PInit(cfg), es) && RunOk(cfg, es)
    requires GapOnlyAtStart(StrandOf(PRun(PInit(cfg), es)), Made(es, Video))
    requires Made(es, Video) != [] ==> KeyPacket(PacketsOf(es), Made(es, Video)[0])
    ensures OffersKeyNow(cfg, es)
  {
  }

  lemma FirstMadeStays(es: seq<Event>)
    requires es != [] && Made(es[..|es| - 1], Video) != []
    requires KeyPacket(PacketsOf(es), Made(es, Video)[0])
    ensures KeyPacket(PacketsOf(es[..|es| - 1]), Made(es[..|es| - 1], Video)[0])
  {
    MadeAllocated(es[..|es| - 1], Video);
    assert Made(es[..|es| - 1], Video)[0] in Made(es[..|es| - 1], Video);
  }

  /** A first key packet and cleans that never empty the queue are enough. */
  lemma {:induction false} NeverEmptiedOffersKey(cfg: Config, es: seq<Event>)
    requires PLegal(PInit(cfg), es) && UndroppedRun(cfg, es) && NeverEmptied(cfg, es)
    requires Made(es, Video) != [] ==> KeyPacket(PacketsOf(es), Made(es, Video)[0])
    ensures AlwaysOffersKey(cfg, es) && GapOnlyAtStart(StrandOf(PRun(PInit(cfg), es)), Made(es, Video))
    decreases |es|
  {
    if es != [] {
      var before := es[..|es| - 1];
      if Made(before, Video) != [] {
        FirstMadeStays(es);
      }
      NeverEmptiedOffersKey(cfg, before);
      RunOkAlways(cfg, before);
      GapOnlyAtStartStep(cfg, es);
    }
    RunOkAlways(cfg, es);
    FirstKeyOffered(cfg, es);
  }
}
