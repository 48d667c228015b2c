// In what order packets cross the pipeline: from capture through the encoder to the muxer's output, over all
// interleavings of the four threads.
module PipelineOrder {
  import opened MediaFrames
  import opened Subsequences
  import opened Routing
  import opened Timestamps
  import opened Payloads
  import opened Pipeline

  // ----- What the events alone determine -----

  ghost function NewIn(e: Event): seq<Packet> {
    match e
    case Capture(pkt, _) => [pkt]
    case Deal(_, outcome) => NewPackets(outcome)
    case _ => []
  }

  /** Every packet that the run allocates, in order; its place is its number. */
  ghost function PacketsOf(es: seq<Event>): seq<Packet> {
    if es == [] then [] else PacketsOf(es[..|es| - 1]) + NewIn(es[|es| - 1])
  }

  /** The numbers of the packets captured for a stream. */
  ghost function CapturedFor(es: seq<Event>, st: StreamType): seq<nat> {
    if es == [] then []
    else
      var (before, e) := (es[..|es| - 1], es[|es| - 1]);
      CapturedFor(before, st) + if e.Capture? && e.target == Some(st) then [|PacketsOf(before)|] else []
  }

  ghost function NewlyMade(e: Event, st: StreamType, n: nat): seq<nat> {
    if e.Deal? && e.st == st && e.outcome.Got? then [n] else []
  }

  /** The numbers of the packets that a stream's encoder produces. */
  ghost function Made(es: seq<Event>, st: StreamType): seq<nat> {
    if es == [] then []
    else
      var (before, e) := (es[..|es| - 1], es[|es| - 1]);
      Made(before, st) + NewlyMade(e, st, |PacketsOf(before)|)
  }

  // ----- One chain of four parts -----

  // A stream's packets form two chains: the captured ones, from the reader to the encoder, and the encoded ones, from
  // the encoder to the output. Either chain has what is done, what the consumer holds, the queue, and what the
  // producer holds. A step leaves out at most one part and puts at most one packet at the end.

  ghost function Chain(done: seq<nat>, hand: seq<nat>, queue: seq<nat>, last: seq<nat>): seq<nat> {
    done + (hand + queue + last)
  }

  lemma ChainParts(done: seq<nat>, hand: seq<nat>, queue: seq<nat>, last: seq<nat>)
    ensures Chain(done, hand, queue, last) == done + hand + (queue + last) == done + hand + queue + last
    ensures Chain(done, hand, queue + last, []) == Chain(done, hand, queue, last)
    ensures Chain(done + hand, [], queue, last) == Chain(done, hand, queue, last)
  {
  }

  lemma ChainTail(done: seq<nat>, hand: seq<nat>, queue: seq<nat>, last: seq<nat>)
    requires queue != []
    ensures Chain(done, hand, queue, last) == done + hand + [queue[0]] + (queue[1..] + last)
    ensures Chain(done, hand, queue[1..], last) == done + hand + (queue[1..] + last)
    ensures Chain(done, [queue[0]], queue[1..], last) == Chain(done, [], queue, last)
  {
    assert queue == [queue[0]] + queue[1..];
  }

  /** The step left out `out`, which stood between `before` and `after`. */
  ghost predicate LeftOut(chain: seq<nat>, chain': seq<nat>, before: seq<nat>, out: seq<nat>, after: seq<nat>) {
    chain == before + out + after && chain' == before + after
  }

  lemma NothingLeftOut(chain: seq<nat>)
    ensures LeftOut(chain, chain, chain, [], [])
  {
  }

  lemma ProducerLeftOut(done: seq<nat>, hand: seq<nat>, queue: seq<nat>, last: seq<nat>)
    ensures LeftOut(Chain(done, hand, queue, last), Chain(done, hand, queue, []), done + hand + queue, last, [])
  {
  }

  lemma ConsumerLeftOut(done: seq<nat>, hand: seq<nat>, queue: seq<nat>, last: seq<nat>)
    ensures LeftOut(Chain(done, hand, queue, last), Chain(done, [], queue, last), done, hand, queue + last)
  {
  }

  lemma OldestLeftOut(done: seq<nat>, hand: seq<nat>, queue: seq<nat>, last: seq<nat>)
    requires queue != []
    ensures LeftOut(Chain(done, hand, queue, last), Chain(done, hand, queue[1..], last),
                    done + hand, [queue[0]], queue[1..] + last)
  {
    ChainTail(done, hand, queue, last);
  }

  lemma StillInOrder(
    chain: seq<nat>, all: seq<nat>, more: seq<nat>, chain': seq<nat>, before: seq<nat>, out: seq<nat>, after: seq<nat>)
    requires Subsequence(chain, all) && LeftOut(chain + more, chain', before, out, after)
    ensures Subsequence(chain', all + more)
  {
    SubsequenceWithout(before, out, after);
    SubsequenceAppendBoth(chain, all, more);
    SubsequenceTransitive(chain', chain + more, all + more);
  }

  // ----- Encoded packets, from the encoder to the output -----

  ghost function NumberOf(frame: MediaFrame): nat {
    if frame.pBuffer.PacketBytes? then frame.pBuffer.pkt else 0
  }

  /** The numbers of the packets written on a stream. */
  ghost function WrittenOn(written: seq<Written>, st: StreamType): seq<nat> {
    if written == [] then []
    else
      var last := written[|written| - 1];
      WrittenOn(written[..|written| - 1], st) + if last.stream == st then [NumberOf(last.frame)] else []
  }

  ghost function MuxHand(pc: MuxPc<nat>, st: StreamType): seq<nat> {
    if pc.Muxing? && pc.stream == st then [pc.frame] else []
  }

  ghost function EncodedHand(pc: EncoderPc<nat>): seq<nat> {
    match pc
    case Produced(p) => [p]
    case Encoded(p) => [p]
    case EncodedAsleep(p) => [p]
    case _ => []
  }

  /** The encoded packets of a stream, those written first, then those under way. */
  ghost function EncodedChain(s: PState, st: StreamType): seq<nat> {
    ChainOf(WrittenOn(s.written, st), s.core, st)
  }

  /** The chain of a stream that a core shows behind what is written. */
  ghost function ChainOf(written: seq<nat>, c: Core<nat>, st: StreamType): seq<nat> {
    Chain(written, MuxHand(c.mux, st), c.Get(st).enc, EncodedHand(c.Get(st).encoder))
  }

  lemma {:induction false} MoveLine(w: seq<nat>, c: Core<nat>, m: Move, st: StreamType)
    returns (before: seq<nat>, out: seq<nat>, after: seq<nat>)
    requires CanMove(c, m)
    ensures LeftOut(ChainOf(w, c, st), ChainOf(w, Moved(c, m), st), before, out, after)
  {
    var (hand, queue, last) := (MuxHand(c.mux, st), c.Get(st).enc, EncodedHand(c.Get(st).encoder));
    before, out, after := ChainOf(w, c, st), [], [];
    NothingLeftOut(ChainOf(w, c, st));
    if m.MuxDequeue? && m.st == st {
      ChainTail(w, hand, queue, last);
    } else if (m.EncoderEnqueue? || m.EncoderResume?) && m.st == st {
      ChainParts(w, hand, queue, last);
      if |queue| == c.Get(st).encCapacity && m.EncoderResume? {
        ProducerLeftOut(w, hand, queue, last);
        before, out, after := w + hand + queue, last, [];
      }
    }
  }

  /** These steps leave the chain alone, but for a packet that the encoder has just produced. */
  lemma EncodedKept(s: PState, e: Event, st: StreamType)
    requires CanStep(s.core, e) && (e.Capture? || e.ReaderDiscard? || e.Wrap? || e.Deal?)
    ensures EncodedChain(PStep(s, e), st) == EncodedChain(s, st) + NewlyMade(e, st, |s.packets|)
  {
    var (c, d) := (s.core, PStep(s, e).core);
    assert d.mux == c.mux && d.Get(st).enc == c.Get(st).enc;
    assert EncodedHand(d.Get(st).encoder) == EncodedHand(c.Get(st).encoder) + NewlyMade(e, st, |s.packets|);
  }

  lemma WrittenKeepsChain(s: PState, st: StreamType)
    requires s.core.mux.Muxing? && PacketsConserved(s)
    ensures EncodedChain(PStep(s, MuxWrite), st) == EncodedChain(s, st)
  {
    var (c, t) := (s.core, PStep(s, MuxWrite));
    MuxFrameKnown(s);
    WrittenSnoc(s.written, t.written[|s.written|], st);
    ChainParts(WrittenOn(s.written, st), MuxHand(c.mux, st), c.Get(st).enc, EncodedHand(c.Get(st).encoder));
  }

  lemma CleanLeavesOut(s: PState, st: StreamType) returns (before: seq<nat>, out: seq<nat>, after: seq<nat>)
    requires s.core.reader.Cleaning?
    ensures LeftOut(EncodedChain(s, st), EncodedChain(PStep(s, CleanNext), st), before, out, after)
  {
    var (c, d, w) := (s.core, PStep(s, CleanNext).core, WrittenOn(s.written, st));
    var (hand, queue, last) := (MuxHand(c.mux, st), c.Get(st).enc, EncodedHand(c.Get(st).encoder));
    assert d.mux == c.mux && d.Get(st).encoder == c.Get(st).encoder;
    if d.Get(st).enc == queue {
      NothingLeftOut(EncodedChain(s, st));
      before, out, after := EncodedChain(s, st), [], [];
    } else {
      OldestLeftOut(w, hand, queue, last);
      before, out, after := w + hand, [queue[0]], queue[1..] + last;
    }
  }

  lemma GiveUpLeavesOut(s: PState, e: Event, st: StreamType) returns (before: seq<nat>, out: seq<nat>, after: seq<nat>)
    requires e.EncoderGiveUp? && CanStep(s.core, e)
    ensures LeftOut(EncodedChain(s, st), EncodedChain(PStep(s, e), st), before, out, after)
  {
    var (c, w) := (s.core, WrittenOn(s.written, st));
    var (hand, queue, last) := (MuxHand(c.mux, st), c.Get(st).enc, EncodedHand(c.Get(st).encoder));
    if e.st == st {
      ProducerLeftOut(w, hand, queue, last);
      before, out, after := w + hand + queue, last, [];
    } else {
      NothingLeftOut(EncodedChain(s, st));
      before, out, after := EncodedChain(s, st), [], [];
    }
  }

  lemma DropLeavesOut(s: PState, st: StreamType) returns (before: seq<nat>, out: seq<nat>, after: seq<nat>)
    requires s.core.mux.Muxing?
    ensures LeftOut(EncodedChain(s, st), EncodedChain(PStep(s, MuxDrop), st), before, out, after)
  {
    var (c, w) := (s.core, WrittenOn(s.written, st));
    var (hand, queue, last) := (MuxHand(c.mux, st), c.Get(st).enc, EncodedHand(c.Get(st).encoder));
    ConsumerLeftOut(w, hand, queue, last);
    before, out, after := w, hand, queue + last;
  }

  /** One step leaves out at most one part of a stream's encoded packets; new ones come last. */
  lemma {:induction false} EncodedStep(s: PState, e: Event, st: StreamType)
    returns (before: seq<nat>, out: seq<nat>, after: seq<nat>)
    requires CanStep(s.core, e) && PacketsConserved(s)
    ensures LeftOut(EncodedChain(s, st) + NewlyMade(e, st, |s.packets|), EncodedChain(PStep(s, e), st),
                    before, out, after)
  {
    assert !e.Deal? ==> EncodedChain(s, st) + NewlyMade(e, st, |s.packets|) == EncodedChain(s, st);
    match e {
      case Route(m) => before, out, after := MoveLine(WrittenOn(s.written, st), s.core, m, st);
      case CleanNext => before, out, after := CleanLeavesOut(s, st);
      case EncoderGiveUp(_) => before, out, after := GiveUpLeavesOut(s, e, st);
      case MuxDrop => before, out, after := DropLeavesOut(s, st);
      case _ =>
        if e.MuxWrite? {
          WrittenKeepsChain(s, st);
        } else {
          EncodedKept(s, e, st);
        }
        NothingLeftOut(EncodedChain(PStep(s, e), st));
        before, out, after := EncodedChain(PStep(s, e), st), [], [];
    }
  }

  lemma WrittenSnoc(written: seq<Written>, last: Written, st: StreamType)
    ensures WrittenOn(written + [last], st)
            == WrittenOn(written, st) + if last.stream == st then [NumberOf(last.frame)] else []
  {
    assert (written + [last])[..|written|] == written;
  }

  /** The muxer's frame shows an allocated packet. */
  lemma MuxFrameKnown(s: PState)
    requires s.core.mux.Muxing? && PacketsConserved(s)
    ensures s.core.mux.frame < |s.packets|
  {
    assert PacketHolders(s, s.core.mux.frame) > 0;
  }

  lemma PacketsAdded(s: PState, e: Event)
    requires CanStep(s.core, e)
    ensures PStep(s, e).packets == s.packets + NewIn(e)
  {
  }

  lemma {:induction false} PacketsAre(cfg: Config, es: seq<Event>)
    requires PLegal(PInit(cfg), es)
    ensures PRun(PInit(cfg), es).packets == PacketsOf(es)
    decreases |es|
  {
    if es != [] {
      PacketsAre(cfg, es[..|es| - 1]);
      PacketsAdded(PRun(PInit(cfg), es[..|es| - 1]), es[|es| - 1]);
    }
  }

  lemma {:induction false} EncodedInOrder(cfg: Config, es: seq<Event>, st: StreamType)
    requires PLegal(PInit(cfg), es)
    ensures Subsequence(EncodedChain(PRun(PInit(cfg), es), st), Made(es, st))
    decreases |es|
  {
    if es != [] {
      var (before, e) := (es[..|es| - 1], es[|es| - 1]);
      var (s, t) := (PRun(PInit(cfg), before), PRun(PInit(cfg), es));
      EncodedInOrder(cfg, before, st);
      PacketsAlways(cfg, before);
      PacketsAre(cfg, before);
      var more := NewlyMade(e, st, |s.packets|);
      var a, b, c := EncodedStep(s, e, st);
      StillInOrder(EncodedChain(s, st), Made(before, st), more, EncodedChain(t, st), a, b, c);
    }
  }

  // ----- Captured packets, from the reader to the encoder -----

  ghost function NewlyCaptured(e: Event, st: StreamType, n: nat): seq<nat> {
    if e.Capture? && e.target == Some(st) then [n] else []
  }

  ghost function NewlyUsed(c: Core<nat>, e: Event, st: StreamType): seq<nat>
    requires CanStep(c, e)
  {
    if e.Deal? && e.st == st then [c.Get(st).encoder.raw] else []
  }

  /** The captured packets that a stream's encoder has encoded, in that order. */
  ghost function Used(cfg: Config, es: seq<Event>, st: StreamType): seq<nat>
    requires PLegal(PInit(cfg), es)
  {
    if es == [] then []
    else
      var before := es[..|es| - 1];
      Used(cfg, before, st) + NewlyUsed(PRun(PInit(cfg), before).core, es[|es| - 1], st)
  }

  ghost function RawHand(pc: EncoderPc<nat>): seq<nat> {
    if pc.GotRaw? then [pc.raw] else []
  }

  ghost function ReaderHand(pc: ReaderPc<nat>, st: StreamType): seq<nat> {
    match pc
    case Captured(p, target) => if target == Some(st) then [p] else []
    case CaptureAsleep(p, stream) => if stream == st then [p] else []
    case _ => []
  }

  ghost function RawChain(used: seq<nat>, c: Core<nat>, st: StreamType): seq<nat> {
    Chain(used, RawHand(c.Get(st).encoder), c.Get(st).raw, ReaderHand(c.reader, st))
  }

  lemma {:induction false} RawMove(used: seq<nat>, c: Core<nat>, m: Move, st: StreamType)
    returns (before: seq<nat>, out: seq<nat>, after: seq<nat>)
    requires CanMove(c, m)
    ensures LeftOut(RawChain(used, c, st), RawChain(used, Moved(c, m), st), before, out, after)
  {
    var (hand, queue, last) := (RawHand(c.Get(st).encoder), c.Get(st).raw, ReaderHand(c.reader, st));
    before, out, after := RawChain(used, c, st), [], [];
    NothingLeftOut(RawChain(used, c, st));
    if m.EncoderDequeue? && m.st == st {
      ChainTail(used, hand, queue, last);
    } else if (m.ReaderEnqueue? || m.ReaderTimeout? || m.ReaderResume?) && last != [] {
      ChainParts(used, hand, queue, last);
      if m.ReaderTimeout? || (m.ReaderResume? && |queue| == c.Get(st).rawCapacity) {
        ProducerLeftOut(used, hand, queue, last);
        before, out, after := used + hand + queue, last, [];
      }
    }
  }

  lemma RawParts(s: PState, e: Event, st: StreamType)
    requires CanStep(s.core, e) && !e.Route?
    ensures var (c, d) := (s.core, PStep(s, e).core);
            && d.Get(st).raw == c.Get(st).raw
            && ReaderHand(d.reader, st) == ReaderHand(c.reader, st) + NewlyCaptured(e, st, |s.packets|)
            && RawHand(c.Get(st).encoder) == NewlyUsed(c, e, st) + RawHand(d.Get(st).encoder)
  {
  }

  lemma ChainGrows(done: seq<nat>, more: seq<nat>, hand: seq<nat>, queue: seq<nat>, last: seq<nat>, extra: seq<nat>)
    ensures Chain(done + more, hand, queue, last + extra) == Chain(done, more + hand, queue, last) + extra
  {
  }

  lemma RawKept(used: seq<nat>, s: PState, e: Event, st: StreamType)
    requires CanStep(s.core, e) && !e.Route?
    ensures RawChain(used + NewlyUsed(s.core, e, st), PStep(s, e).core, st)
            == RawChain(used, s.core, st) + NewlyCaptured(e, st, |s.packets|)
  {
    RawParts(s, e, st);
    ChainGrows(used, NewlyUsed(s.core, e, st), RawHand(PStep(s, e).core.Get(st).encoder), s.core.Get(st).raw,
               ReaderHand(s.core.reader, st), NewlyCaptured(e, st, |s.packets|));
  }

  lemma {:induction false} RawStep(used: seq<nat>, s: PState, e: Event, st: StreamType)
    returns (before: seq<nat>, out: seq<nat>, after: seq<nat>)
    requires CanStep(s.core, e)
    ensures LeftOut(RawChain(used, s.core, st) + NewlyCaptured(e, st, |s.packets|),
                    RawChain(used + NewlyUsed(s.core, e, st), PStep(s, e).core, st), before, out, after)
  {
    if e.Route? {
      assert used + NewlyUsed(s.core, e, st) == used;
      assert RawChain(used, s.core, st) + NewlyCaptured(e, st, |s.packets|) == RawChain(used, s.core, st);
      before, out, after := RawMove(used, s.core, e.move, st);
    } else {
      var chain := RawChain(used + NewlyUsed(s.core, e, st), PStep(s, e).core, st);
      RawKept(used, s, e, st);
      NothingLeftOut(chain);
      before, out, after := chain, [], [];
    }
  }

  lemma UsedStep(cfg: Config, es: seq<Event>, st: StreamType)
    requires es != [] && PLegal(PInit(cfg), es)
    ensures var (before, e) := (es[..|es| - 1], es[|es| - 1]);
            var s := PRun(PInit(cfg), before);
            && Used(cfg, es, st) == Used(cfg, before, st) + NewlyUsed(s.core, e, st)
            && CapturedFor(es, st) == CapturedFor(before, st) + NewlyCaptured(e, st, |s.packets|)
            && PRun(PInit(cfg), es) == PStep(s, e)
  {
    PacketsAre(cfg, es[..|es| - 1]);
  }

  lemma {:induction false} UsedInOrder(cfg: Config, es: seq<Event>, st: StreamType)
    requires PLegal(PInit(cfg), es)
    ensures Subsequence(RawChain(Used(cfg, es, st), PRun(PInit(cfg), es).core, st), CapturedFor(es, st))
    decreases |es|
  {
    if es != [] {
      var (before, e) := (es[..|es| - 1], es[|es| - 1]);
      var (s, used) := (PRun(PInit(cfg), before), Used(cfg, before, st));
      UsedInOrder(cfg, before, st);
      UsedStep(cfg, es, st);
      var a, b, c := RawStep(used, s, e, st);
      StillInOrder(RawChain(used, s.core, st), CapturedFor(before, st), NewlyCaptured(e, st, |s.packets|),
                   RawChain(used + NewlyUsed(s.core, e, st), PStep(s, e).core, st), a, b, c);
    }
  }

  // ----- End to end -----

  /** What a stream's encoder has taken in since it last produced a packet: for audio, the packets of a chunk
      that is not full yet. */
  ghost function Taken(cfg: Config, es: seq<Event>, st: StreamType): seq<nat>
    requires PLegal(PInit(cfg), es)
  {
    if es == [] then []
    else
      var (before, e) := (es[..|es| - 1], es[|es| - 1]);
      if NewlyMade(e, st, 0) != [] then []
      else Taken(cfg, before, st) + NewlyUsed(PRun(PInit(cfg), before).core, e, st)
  }

  /** The captured packets that went into the encoder since the packet before `p` came out of it, up to the one it was
      dealing with when `p` came out: for audio, the packets of the chunk. */
  ghost function IntakeOf(cfg: Config, es: seq<Event>, p: nat): seq<nat>
    requires PLegal(PInit(cfg), es)
  {
    if es == [] then []
    else
      var (before, e) := (es[..|es| - 1], es[|es| - 1]);
      if e.Deal? && e.outcome.Got? && p == |PacketsOf(before)|
      then Taken(cfg, before, e.st) + NewlyUsed(PRun(PInit(cfg), before).core, e, e.st)
      else IntakeOf(cfg, before, p)
  }

  ghost function Intake(cfg: Config, es: seq<Event>): nat -> seq<nat>
    requires PLegal(PInit(cfg), es)
  {
    (p: nat) => IntakeOf(cfg, es, p)
  }

  ghost function FlatMap(g: nat -> seq<nat>, xs: seq<nat>): seq<nat> {
    if xs == [] then [] else FlatMap(g, xs[..|xs| - 1]) + g(xs[|xs| - 1])
  }

  lemma FlatMapSnoc(g: nat -> seq<nat>, xs: seq<nat>, x: nat)
    ensures FlatMap(g, xs + [x]) == FlatMap(g, xs) + g(x)
  {
    assert (xs + [x])[..|xs|] == xs;
  }

  lemma {:induction false} FlatMapAgrees(g: nat -> seq<nat>, h: nat -> seq<nat>, xs: seq<nat>)
    requires forall x | x in xs :: g(x) == h(x)
    ensures FlatMap(g, xs) == FlatMap(h, xs)
  {
    if xs != [] {
      FlatMapAgrees(g, h, xs[..|xs| - 1]);
    }
  }

  lemma {:induction false} SubsequenceFlatMap(g: nat -> seq<nat>, xs: seq<nat>, ys: seq<nat>)
    requires Subsequence(xs, ys)
    ensures Subsequence(FlatMap(g, xs), FlatMap(g, ys))
    decreases |ys|
  {
    if xs != [] {
      var (xs', ys', last) := (xs[..|xs| - 1], ys[..|ys| - 1], g(ys[|ys| - 1]));
      if Subsequence(xs, ys') {
        SubsequenceFlatMap(g, xs, ys');
        SubsequenceAppend(FlatMap(g, xs), FlatMap(g, ys'), last);
      } else {
        SubsequenceFlatMap(g, xs', ys');
        SubsequenceAppendBoth(FlatMap(g, xs'), FlatMap(g, ys'), last);
      }
    }
  }

  lemma {:induction false} MadeAllocated(es: seq<Event>, st: StreamType)
    ensures forall p | p in Made(es, st) :: p < |PacketsOf(es)|
  {
    if es != [] {
      MadeAllocated(es[..|es| - 1], st);
    }
  }

  /** What went into a stream's encoder for the packets that it has produced, in that order. */
  ghost function MadeFrom(cfg: Config, es: seq<Event>, st: StreamType): seq<nat>
    requires PLegal(PInit(cfg), es)
  {
    FlatMap(Intake(cfg, es), Made(es, st))
  }

  lemma IntakeStays(cfg: Config, es: seq<Event>, st: StreamType)
    requires es != [] && PLegal(PInit(cfg), es)
    ensures FlatMap(Intake(cfg, es), Made(es[..|es| - 1], st)) == MadeFrom(cfg, es[..|es| - 1], st)
  {
    var before := es[..|es| - 1];
    MadeAllocated(before, st);
    FlatMapAgrees(Intake(cfg, before), Intake(cfg, es), Made(before, st));
  }

  lemma NothingMade(cfg: Config, es: seq<Event>, st: StreamType)
    requires es != [] && PLegal(PInit(cfg), es) && NewlyMade(es[|es| - 1], st, 0) == []
    ensures var (before, e) := (es[..|es| - 1], es[|es| - 1]);
            var more := NewlyUsed(PRun(PInit(cfg), before).core, e, st);
            && MadeFrom(cfg, es, st) == MadeFrom(cfg, before, st)
            && Taken(cfg, es, st) == Taken(cfg, before, st) + more && Used(cfg, es, st) == Used(cfg, before, st) + more
  {
    IntakeStays(cfg, es, st);
    assert Made(es, st) == Made(es[..|es| - 1], st);
  }

  lemma OneMade(cfg: Config, es: seq<Event>, st: StreamType)
    requires es != [] && PLegal(PInit(cfg), es) && NewlyMade(es[|es| - 1], st, 0) != []
    ensures var (before, e) := (es[..|es| - 1], es[|es| - 1]);
            var more := NewlyUsed(PRun(PInit(cfg), before).core, e, st);
            && MadeFrom(cfg, es, st) == MadeFrom(cfg, before, st) + (Taken(cfg, before, st) + more)
            && Taken(cfg, es, st) == [] && Used(cfg, es, st) == Used(cfg, before, st) + more
  {
    var before := es[..|es| - 1];
    IntakeStays(cfg, es, st);
    FlatMapSnoc(Intake(cfg, es), Made(before, st), |PacketsOf(before)|);
  }

  lemma SplitGrows(made: seq<nat>, taken: seq<nat>, more: seq<nat>)
    ensures made + (taken + more) == made + taken + more == made + (taken + more) + []
  {
  }

  lemma {:induction false} SplitStep(cfg: Config, es: seq<Event>, st: StreamType)
    requires es != [] && PLegal(PInit(cfg), es)
    requires var before := es[..|es| - 1]; Used(cfg, before, st) == MadeFrom(cfg, before, st) + Taken(cfg, before, st)
    ensures Used(cfg, es, st) == MadeFrom(cfg, es, st) + Taken(cfg, es, st)
  {
    var (before, e) := (es[..|es| - 1], es[|es| - 1]);
    SplitGrows(MadeFrom(cfg, before, st), Taken(cfg, before, st), NewlyUsed(PRun(PInit(cfg), before).core, e, st));
    if NewlyMade(e, st, 0) == [] {
      NothingMade(cfg, es, st);
    } else {
      OneMade(cfg, es, st);
    }
  }

  /** What a stream's encoder took in is split, in order and without overlap, among the packets it produced;
      the rest waits for the next one. */
  lemma {:induction false} UsedIsSplit(cfg: Config, es: seq<Event>, st: StreamType)
    requires PLegal(PInit(cfg), es)
    ensures Used(cfg, es, st) == MadeFrom(cfg, es, st) + Taken(cfg, es, st)
    decreases |es|
  {
    if es != [] {
      UsedIsSplit(cfg, es[..|es| - 1], st);
      SplitStep(cfg, es, st);
    }
  }

  lemma UsedByMade(cfg: Config, es: seq<Event>, st: StreamType)
    requires PLegal(PInit(cfg), es)
    ensures Subsequence(MadeFrom(cfg, es, st), Used(cfg, es, st))
  {
    UsedIsSplit(cfg, es, st);
    SubsequenceSelf(MadeFrom(cfg, es, st));
    SubsequenceAppend(MadeFrom(cfg, es, st), MadeFrom(cfg, es, st), Taken(cfg, es, st));
  }

  lemma WrittenPart(cfg: Config, es: seq<Event>, st: StreamType)
    requires PLegal(PInit(cfg), es)
    ensures Subsequence(WrittenOn(PRun(PInit(cfg), es).written, st), Made(es, st))
  {
    var s := PRun(PInit(cfg), es);
    var lane := s.core.Get(st);
    EncodedInOrder(cfg, es, st);
    DoneInOrder(WrittenOn(s.written, st), MuxHand(s.core.mux, st), lane.enc, EncodedHand(lane.encoder), Made(es, st));
  }

  lemma UsedPart(cfg: Config, es: seq<Event>, st: StreamType)
    requires PLegal(PInit(cfg), es)
    ensures Subsequence(Used(cfg, es, st), CapturedFor(es, st))
  {
    var c := PRun(PInit(cfg), es).core;
    var lane := c.Get(st);
    UsedInOrder(cfg, es, st);
    DoneInOrder(Used(cfg, es, st), RawHand(lane.encoder), lane.raw, ReaderHand(c.reader, st), CapturedFor(es, st));
  }

  /** Over every interleaving, with any pool: what is written on a stream is, in the order of encoding, part of what
      that stream's encoder produced; and the captured packets that went in for it are, all together and in the order
      of capture, part of those captured for the stream. Nothing is written twice, on the other stream, or out of
      order, and no captured packet goes into two written ones. */
  lemma {:induction false} WrittenInOrder(cfg: Config, poolCapacity: nat, es: seq<Event>, st: StreamType)
    requires Legal(Init(cfg, poolCapacity), es)
    ensures PLegal(PInit(cfg), es)
    ensures var written := WrittenOn(Run(Init(cfg, poolCapacity), es).written, st);
            && Subsequence(written, Made(es, st))
            && Subsequence(FlatMap(Intake(cfg, es), written), CapturedFor(es, st))
  {
    RunRefines(cfg, poolCapacity, es);
    var written := WrittenOn(PRun(PInit(cfg), es).written, st);
    WrittenPart(cfg, es, st);
    UsedPart(cfg, es, st);
    UsedByMade(cfg, es, st);
    SubsequenceFlatMap(Intake(cfg, es), written, Made(es, st));
    SubsequenceTransitive(FlatMap(Intake(cfg, es), written), MadeFrom(cfg, es, st), Used(cfg, es, st));
    SubsequenceTransitive(FlatMap(Intake(cfg, es), written), Used(cfg, es, st), CapturedFor(es, st));
  }

  lemma DoneInOrder(done: seq<nat>, hand: seq<nat>, queue: seq<nat>, last: seq<nat>, all: seq<nat>)
    requires Subsequence(Chain(done, hand, queue, last), all)
    ensures Subsequence(done, all)
  {
    SubsequenceSelf(done);
    SubsequenceAppend(done, done, hand + queue + last);
    SubsequenceTransitive(done, Chain(done, hand, queue, last), all);
  }

  // ----- What a written frame shows -----

  /** The frame shows packet `p`, with both timestamps relative to `o`. */
  ghost predicate Shows(frame: MediaFrame, p: nat, packets: seq<Packet>, o: int) {
    && p < |packets|
    && frame.pBuffer == PacketBytes(p) && frame.size == packets[p].size && frame.flag == packets[p].flag
    && frame.pts == packets[p].pts - o && frame.dts == packets[p].dts - o
  }

  /** The packet that was written at `i` has a dts that is not negative. */
  ghost predicate Timed(written: seq<Written>, packets: seq<Packet>, i: nat)
    requires i < |written|
  {
    var p := NumberOf(written[i].frame);
    p < |packets| && packets[p].dts >= 0
  }

  /** The place of the first such packet, or the number of packets written. */
  ghost function FirstTimed(written: seq<Written>, packets: seq<Packet>): (k: nat)
    ensures k <= |written|
    ensures forall j | 0 <= j < k :: !Timed(written, packets, j)
    ensures k < |written| ==> Timed(written, packets, k)
  {
    if written == [] then 0
    else
      var before := written[..|written| - 1];
      var k := FirstTimed(before, packets);
      assert forall j | 0 <= j < |before| :: Timed(before, packets, j) == Timed(written, packets, j);
      if k < |before| || Timed(written, packets, |before|) then k else |written|
  }

  /** No origin before the first packet with a non-negative dts, and that dts from then on. */
  ghost function OriginAt(written: seq<Written>, packets: seq<Packet>, i: nat): int
    requires i < |written|
  {
    var k := FirstTimed(written, packets);
    if i < k then 0 else packets[NumberOf(written[k].frame)].dts
  }

  ghost predicate WrittenShow(written: seq<Written>, packets: seq<Packet>) {
    forall i: nat | i < |written| ::
      Shows(written[i].frame, NumberOf(written[i].frame), packets, OriginAt(written, packets, i))
  }

  /** What `first_pts` has to do with it. */
  ghost predicate OriginOk(s: PState) {
    var k := FirstTimed(s.written, s.packets);
    if k < |s.written| then s.firstPts == s.packets[NumberOf(s.written[k].frame)].dts else s.firstPts < 0
  }

  lemma FirstTimedUnique(written: seq<Written>, packets: seq<Packet>, k: nat)
    requires k <= |written| && (forall j | 0 <= j < k :: !Timed(written, packets, j))
    requires k < |written| ==> Timed(written, packets, k)
    ensures FirstTimed(written, packets) == k
  {
  }

  /** More packets change nothing for what has been written. */
  lemma OriginsStay(written: seq<Written>, packets: seq<Packet>, packets': seq<Packet>)
    requires WrittenShow(written, packets) && packets <= packets'
    ensures FirstTimed(written, packets') == FirstTimed(written, packets) && WrittenShow(written, packets')
  {
    forall j: nat | j < |written|
      ensures Timed(written, packets', j) == Timed(written, packets, j)
    {
      assert Shows(written[j].frame, NumberOf(written[j].frame), packets, OriginAt(written, packets, j));
    }
    FirstTimedUnique(written, packets', FirstTimed(written, packets));
    forall i: nat | i < |written|
      ensures Shows(written[i].frame, NumberOf(written[i].frame), packets', OriginAt(written, packets', i))
    {
      assert Shows(written[i].frame, NumberOf(written[i].frame), packets, OriginAt(written, packets, i));
    }
  }

  lemma FirstTimedSnoc(written: seq<Written>, packets: seq<Packet>, last: Written)
    ensures var (k, k') := (FirstTimed(written, packets), FirstTimed(written + [last], packets));
            k' == if k < |written| || Timed(written + [last], packets, |written|) then k else |written| + 1
  {
    var after := written + [last];
    assert forall j | 0 <= j < |written| :: Timed(after, packets, j) == Timed(written, packets, j);
    var k := FirstTimed(written, packets);
    FirstTimedUnique(after, packets, if k < |written| || Timed(after, packets, |written|) then k else |after|);
  }

  /** One more packet, written relative to the origin that is in force with it. */
  lemma WrittenShowsSnoc(s: PState)
    requires s.core.mux.Muxing? && s.core.mux.frame < |s.packets|
    requires WrittenShow(s.written, s.packets) && OriginOk(s)
    ensures WrittenShow(PStep(s, MuxWrite).written, s.packets) && OriginOk(PStep(s, MuxWrite))
  {
    var t := PStep(s, MuxWrite);
    var (n, p) := (|s.written|, s.core.mux.frame);
    assert t.written == s.written + [t.written[n]] && NumberOf(t.written[n].frame) == p;
    FirstTimedSnoc(s.written, s.packets, t.written[n]);
    forall i: nat | i < |t.written|
      ensures Shows(t.written[i].frame, NumberOf(t.written[i].frame), s.packets, OriginAt(t.written, s.packets, i))
    {
      if i < n {
        assert Shows(s.written[i].frame, NumberOf(s.written[i].frame), s.packets, OriginAt(s.written, s.packets, i));
      }
    }
  }

  lemma {:induction false} WrittenShowAlways(cfg: Config, es: seq<Event>)
    requires PLegal(PInit(cfg), es)
    ensures var s := PRun(PInit(cfg), es); WrittenShow(s.written, s.packets) && OriginOk(s)
    decreases |es|
  {
    if es != [] {
      var (before, e) := (es[..|es| - 1], es[|es| - 1]);
      var s := PRun(PInit(cfg), before);
      WrittenShowAlways(cfg, before);
      PacketsAlways(cfg, before);
      if e.MuxWrite? {
        MuxFrameKnown(s);
        WrittenShowsSnoc(s);
      } else {
        PacketsAdded(s, e);
        OriginsStay(s.written, s.packets, PStep(s, e).packets);
      }
    }
  }

  /** Whatever frames were recycled in between, each written frame shows the packet that its number names: payload,
      size, key flag, and both of its timestamps, relative to one origin: none before the first packet with a
      non-negative dts, and that dts from then on. */
  lemma {:induction false} WrittenFaithful(cfg: Config, poolCapacity: nat, es: seq<Event>)
    requires Legal(Init(cfg, poolCapacity), es)
    ensures WrittenShow(Run(Init(cfg, poolCapacity), es).written, PacketsOf(es))
  {
    RunRefines(cfg, poolCapacity, es);
    WrittenShowAlways(cfg, es);
    PacketsAre(cfg, es);
  }

  /** And while it is under way: every frame that an encoder has filled and not yet let go of, every queued one and the
      one in the muxer's hand show their packet with its own timestamps; every captured one carries its packet. */
  lemma {:induction false} HeldFaithful(cfg: Config, poolCapacity: nat, es: seq<Event>, f: nat)
    requires Legal(Init(cfg, poolCapacity), es)
    ensures var s := Run(Init(cfg, poolCapacity), es);
            && (EncodedRole(s.core, f) ==> Shows(FrameAt(s, f), NumberOf(FrameAt(s, f)), PacketsOf(es), 0))
            && (RawRole(s.core, f) ==> FrameAt(s, f).pBuffer.PacketItself?)
  {
    RunRefines(cfg, poolCapacity, es);
    PacketsAre(cfg, es);
    var s := Run(Init(cfg, poolCapacity), es);
    assert View(s).packets == s.packets;
    if EncodedRole(s.core, f) {
      assert IsEncoded(s.heap[f], s.packets);
    }
    if RawRole(s.core, f) {
      assert IsCaptured(s.heap[f]);
    }
  }

  // ----- What is leaked -----

  /** The packets allocated for an encode call that yielded none. */
  ghost function Unyielded(es: seq<Event>): seq<nat> {
    if es == [] then []
    else
      var (before, e) := (es[..|es| - 1], es[|es| - 1]);
      Unyielded(before) + if e.Deal? && e.outcome.NoPacket? then [|PacketsOf(before)|] else []
  }

  lemma LeakedStep(s: PState, e: Event)
    requires CanStep(s.core, e)
    ensures PStep(s, e).leaked == s.leaked + if e.Deal? && e.outcome.NoPacket? then [|s.packets|] else []
  {
  }

  lemma {:induction false} LeakedReference(cfg: Config, es: seq<Event>)
    requires PLegal(PInit(cfg), es)
    ensures PRun(PInit(cfg), es).leaked == Unyielded(es)
    decreases |es|
  {
    if es != [] {
      LeakedReference(cfg, es[..|es| - 1]);
      PacketsAre(cfg, es[..|es| - 1]);
      LeakedStep(PRun(PInit(cfg), es[..|es| - 1]), es[|es| - 1]);
    }
  }

  /** Over every interleaving, the packets that are neither carried, produced, lost nor freed are exactly those. */
  lemma {:induction false} LeakedAre(cfg: Config, poolCapacity: nat, es: seq<Event>, p: nat)
    requires Legal(Init(cfg, poolCapacity), es)
    ensures var s := Run(Init(cfg, poolCapacity), es);
            && s.leakedPackets == Unyielded(es)
            && (p in Unyielded(es) ==> p !in s.freedPackets && Holders(View(s).core, p) == 0)
            && (p < |PacketsOf(es)| && p !in Unyielded(es) ==>
                  || p in s.freedPackets || Holders(View(s).core, p) > 0
                  || s.core.video.encoder == Produced(p) || s.core.audio.encoder == Produced(p))
  {
    RunRefines(cfg, poolCapacity, es);
    LeakedReference(cfg, es);
    PacketsAlways(cfg, es);
    PacketsAre(cfg, es);
    var v := View(Run(Init(cfg, poolCapacity), es));
    assert PacketHolders(v, p) == if p < |v.packets| then 1 else 0;
  }
}
