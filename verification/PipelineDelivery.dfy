// That the pipeline delivers: work that is given to it one piece at a time comes out complete.
module PipelineDelivery {
  import opened MediaFrames
  import opened Routing
  import opened Timestamps
  import opened Payloads
  import opened Pipeline
  import opened PipelineOrder

  /** A captured packet, for one of the streams, and what its encoder makes of it. */
  datatype Item = Item(st: StreamType, raw: Packet, out: Packet)

  /** Nothing is queued or in any hand. */
  ghost predicate Quiet(cfg: Config, s: PState) {
    s.core == InitCore<nat>(cfg)
  }

  /** The eight steps that carry one item through: into the encoder's hand, through the encoder, and out. */
  function Carry(item: Item): seq<Event> {
    In(item) + On(item) + Out(item)
  }

  function In(item: Item): seq<Event> {
    [Capture(item.raw, Some(item.st)), Route(ReaderEnqueue), Route(EncoderDequeue(item.st))]
  }

  function On(item: Item): seq<Event> {
    [Deal(item.st, Got(item.out)), Wrap(item.st), Route(EncoderEnqueue(item.st))]
  }

  function Out(item: Item): seq<Event> {
    [Route(MuxDequeue(item.st)), MuxWrite]
  }

  function Schedule(items: seq<Item>): seq<Event> {
    if items == [] then [] else Schedule(items[..|items| - 1]) + Carry(items[|items| - 1])
  }

  ghost predicate Roomy(cfg: Config) {
    cfg.rawVideo > 0 && cfg.encVideo > 0 && cfg.rawAudio > 0 && cfg.encAudio > 0
  }

  lemma Next(cfg: Config, es: seq<Event>, e: Event) returns (es': seq<Event>)
    requires PLegal(PInit(cfg), es) && CanStep(PRun(PInit(cfg), es).core, e)
    ensures es' == es + [e] && PLegal(PInit(cfg), es') && PRun(PInit(cfg), es') == PStep(PRun(PInit(cfg), es), e)
  {
    es' := es + [e];
    assert es'[..|es|] == es;
  }

  /** The same state with a captured packet in one encoder's hand. */
  ghost function WithRaw(s: PState, st: StreamType, p: nat): PState {
    s.(core := SetEncoder(s.core, st, GotRaw(p)))
  }

  /** The same state with one packet in the queue behind an encoder. */
  ghost function WithQueued(s: PState, st: StreamType, p: nat): PState {
    s.(core := s.core.Set(st, s.core.Get(st).(enc := [p])))
  }

  /** From capture to the encoder's hand. */
  lemma CarryIn(cfg: Config, es: seq<Event>, item: Item) returns (es': seq<Event>)
    requires Roomy(cfg) && PLegal(PInit(cfg), es) && Quiet(cfg, PRun(PInit(cfg), es))
    ensures es' == es + In(item) && PLegal(PInit(cfg), es')
    ensures var s := PRun(PInit(cfg), es);
            PRun(PInit(cfg), es') == WithRaw(s.(packets := s.packets + [item.raw]), item.st, |s.packets|)
  {
    es' := Next(cfg, es, Capture(item.raw, Some(item.st)));
    es' := Next(cfg, es', Route(ReaderEnqueue));
    es' := Next(cfg, es', Route(EncoderDequeue(item.st)));
  }

  /** Through the encoder into the queue behind it. */
  lemma CarryOn(cfg: Config, es: seq<Event>, item: Item, s: PState, n: nat) returns (es': seq<Event>)
    requires Roomy(cfg) && PLegal(PInit(cfg), es) && Quiet(cfg, s) && n < |s.packets|
    requires PRun(PInit(cfg), es) == WithRaw(s, item.st, n)
    ensures es' == es + On(item) && PLegal(PInit(cfg), es')
    ensures PRun(PInit(cfg), es')
            == WithQueued(s.(packets := s.packets + [item.out], freed := s.freed + [n]), item.st, |s.packets|)
  {
    es' := Next(cfg, es, Deal(item.st, Got(item.out)));
    es' := Next(cfg, es', Wrap(item.st));
    es' := Next(cfg, es', Route(EncoderEnqueue(item.st)));
  }

  /** The same state with a packet in the muxer's hand. */
  ghost function WithMux(s: PState, st: StreamType, p: nat): PState {
    s.(core := s.core.(mux := Muxing(st, p)))
  }

  lemma Handed(cfg: Config, s: PState, st: StreamType, p: nat)
    requires Quiet(cfg, s)
    ensures CanStep(WithQueued(s, st, p).core, Route(MuxDequeue(st)))
    ensures PStep(WithQueued(s, st, p), Route(MuxDequeue(st))) == WithMux(s, st, p)
  {
  }

  lemma WrittenOut(cfg: Config, s: PState, st: StreamType, p: nat)
    requires Quiet(cfg, s) && p < |s.packets|
    ensures CanStep(WithMux(s, st, p).core, MuxWrite)
    ensures var t := PStep(WithMux(s, st, p), MuxWrite);
            && Quiet(cfg, t) && t.packets == s.packets && t.freed == s.freed + [p] && t.leaked == s.leaked
            && |t.written| == |s.written| + 1 && t.written[..|s.written|] == s.written
            && t.written[|s.written|].stream == st && NumberOf(t.written[|s.written|].frame) == p
  {
  }

  /** Out of it, into the output. */
  lemma CarryOut(cfg: Config, es: seq<Event>, item: Item, s: PState, p: nat) returns (es': seq<Event>)
    requires PLegal(PInit(cfg), es) && Quiet(cfg, s) && p < |s.packets|
    requires PRun(PInit(cfg), es) == WithQueued(s, item.st, p)
    ensures es' == es + Out(item) && PLegal(PInit(cfg), es')
    ensures var t := PRun(PInit(cfg), es');
            && Quiet(cfg, t) && t.packets == s.packets && t.freed == s.freed + [p] && t.leaked == s.leaked
            && |t.written| == |s.written| + 1 && t.written[..|s.written|] == s.written
            && t.written[|s.written|].stream == item.st && NumberOf(t.written[|s.written|].frame) == p
  {
    Handed(cfg, s, item.st, p);
    es' := Next(cfg, es, Route(MuxDequeue(item.st)));
    WrittenOut(cfg, s, item.st, p);
    es' := Next(cfg, es', MuxWrite);
  }

  /** Item `i` was captured as packet 2i and has come out as packet 2i + 1, on its own stream and in its place; both
      packets have been freed, nothing is lost or leaked, and nothing is left in the pipeline. */
  ghost predicate Delivered(cfg: Config, s: PState, items: seq<Item>) {
    && Quiet(cfg, s) && s.leaked == [] && |s.packets| == 2 * |items| && |s.freed| == 2 * |items|
    && |s.written| == |items|
    && forall i | 0 <= i < |items| ::
         && s.packets[2 * i] == items[i].raw && s.packets[2 * i + 1] == items[i].out
         && s.freed[2 * i] == 2 * i && s.freed[2 * i + 1] == 2 * i + 1
         && s.written[i].stream == items[i].st && NumberOf(s.written[i].frame) == 2 * i + 1
  }

  lemma DeliveredOneMore(cfg: Config, s: PState, t: PState, items: seq<Item>, item: Item)
    requires Delivered(cfg, s, items) && Quiet(cfg, t) && t.leaked == []
    requires t.packets == s.packets + [item.raw] + [item.out]
    requires t.freed == s.freed + [2 * |items|] + [2 * |items| + 1]
    requires |t.written| == |s.written| + 1 && t.written[..|s.written|] == s.written
    requires t.written[|items|].stream == item.st && NumberOf(t.written[|items|].frame) == 2 * |items| + 1
    ensures Delivered(cfg, t, items + [item])
  {
    forall i | 0 <= i < |items|
      ensures t.written[i] == s.written[i]
    {
      assert t.written[..|s.written|][i] == s.written[i];
    }
  }

  lemma Associate(es: seq<Event>, a: seq<Event>, b: seq<Event>, c: seq<Event>)
    ensures es + (a + b + c) == es + a + b + c
  {
  }

  /** What one item does to the pipeline. */
  ghost predicate Carried(cfg: Config, s: PState, t: PState, item: Item) {
    var n := |s.packets|;
    && Quiet(cfg, t) && t.leaked == s.leaked
    && t.packets == s.packets + [item.raw] + [item.out] && t.freed == s.freed + [n] + [n + 1]
    && |t.written| == |s.written| + 1 && t.written[..|s.written|] == s.written
    && t.written[|s.written|].stream == item.st && NumberOf(t.written[|s.written|].frame) == n + 1
  }

  /** One item, from capture to output. */
  lemma CarryThrough(cfg: Config, es: seq<Event>, item: Item) returns (es': seq<Event>)
    requires Roomy(cfg) && PLegal(PInit(cfg), es) && Quiet(cfg, PRun(PInit(cfg), es))
    ensures es' == es + Carry(item) && PLegal(PInit(cfg), es')
    ensures Carried(cfg, PRun(PInit(cfg), es), PRun(PInit(cfg), es'), item)
  {
    var s := PRun(PInit(cfg), es);
    var n := |s.packets|;
    var one := CarryIn(cfg, es, item);
    var s1 := s.(packets := s.packets + [item.raw]);
    var two := CarryOn(cfg, one, item, s1, n);
    var s2 := s1.(packets := s1.packets + [item.out], freed := s1.freed + [n]);
    es' := CarryOut(cfg, two, item, s2, |s1.packets|);
    Associate(es, In(item), On(item), Out(item));
  }

  lemma NothingYet(cfg: Config, items: seq<Item>)
    requires items == []
    ensures PLegal(PInit(cfg), Schedule(items)) && Delivered(cfg, PRun(PInit(cfg), Schedule(items)), items)
  {
  }

  lemma OneMore(cfg: Config, es: seq<Event>, es': seq<Event>, items: seq<Item>, item: Item)
    requires Roomy(cfg) && PLegal(PInit(cfg), es) && Delivered(cfg, PRun(PInit(cfg), es), items)
    requires es' == es + Carry(item)
    ensures PLegal(PInit(cfg), es') && Delivered(cfg, PRun(PInit(cfg), es'), items + [item])
  {
    var carried := CarryThrough(cfg, es, item);
    DeliveredOneMore(cfg, PRun(PInit(cfg), es), PRun(PInit(cfg), es'), items, item);
  }

  ghost predicate Works(cfg: Config, es: seq<Event>, items: seq<Item>) {
    PLegal(PInit(cfg), es) && Delivered(cfg, PRun(PInit(cfg), es), items)
  }

  lemma {:induction false} ScheduleWorks(cfg: Config, items: seq<Item>, es: seq<Event>)
    requires Roomy(cfg) && es == Schedule(items)
    ensures Works(cfg, es, items)
    decreases |items|
  {
    if items == [] {
      NothingYet(cfg, items);
    } else {
      var (before, item) := (items[..|items| - 1], items[|items| - 1]);
      var earlier := Schedule(before);
      ScheduleWorks(cfg, before, earlier);
      OneMore(cfg, earlier, es, before, item);
      assert before + [item] == items;
    }
  }

  lemma {:induction false} ScheduleDelivers(cfg: Config, items: seq<Item>)
    requires Roomy(cfg)
    ensures PLegal(PInit(cfg), Schedule(items)) && Delivered(cfg, PRun(PInit(cfg), Schedule(items)), items)
  {
    ScheduleWorks(cfg, items, Schedule(items));
  }

  /** With room in every queue, any list of captured packets, of both streams in any order, comes out complete: there
      is a schedule by which the recycling pipeline, with any pool, writes what the encoders made of them, each on its
      own stream, in order, with its own payload and timestamps, frees every packet once, and is empty again. */
  lemma {:induction false} DeliversAll(cfg: Config, poolCapacity: nat, items: seq<Item>)
    requires Roomy(cfg)
    ensures Legal(Init(cfg, poolCapacity), Schedule(items))
    ensures var s := Run(Init(cfg, poolCapacity), Schedule(items));
            Delivered(cfg, View(s), items) && !s.fault && WrittenShow(s.written, s.packets)
  {
    ScheduleDelivers(cfg, items);
    RunRefines(cfg, poolCapacity, Schedule(items));
    WrittenShowAlways(cfg, Schedule(items));
  }
}
