// How many frames the recycling pipeline ever allocates.
module PoolUse {
  import opened MediaFrames
  import opened Routing
  import opened Timestamps
  import opened Payloads
  import opened Pipeline

  /** The frames that the pipeline itself has at a time: queued, in a thread's hand, or lost. */
  ghost function InUse(c: Core<nat>): nat {
    |Queued(c)| + |Hands(c)| + |c.lost|
  }

  lemma InUseMapped(g: nat -> nat, c: Core<nat>)
    ensures InUse(MapCore(g, c)) == InUse(c)
  {
  }

  /** The most it has had at any moment of a run. The reference pipeline shows it, so no pool has a say in it. */
  ghost function HighWater(cfg: Config, es: seq<Event>): nat
    requires PLegal(PInit(cfg), es)
  {
    if es == [] then 0
    else
      var (high, now) := (HighWater(cfg, es[..|es| - 1]), InUse(PRun(PInit(cfg), es).core));
      if high < now then now else high
  }

  /** A frame is allocated only when the pool is empty, and given back only when it is full. */
  ghost predicate PoolStep(s: State, t: State) {
    || (t.pool == s.pool && t.freed == s.freed && |t.heap| == |s.heap|)
    || (|s.pool| < s.poolCapacity && |t.pool| == |s.pool| + 1 && t.freed == s.freed && |t.heap| == |s.heap|)
    || (|s.pool| == s.poolCapacity && t.pool == s.pool && |t.freed| == |s.freed| + 1 && |t.heap| == |s.heap|)
    || (s.pool != [] && |t.pool| == |s.pool| - 1 && t.freed == s.freed && |t.heap| == |s.heap|)
    || (s.pool == [] == t.pool && t.freed == s.freed && |t.heap| == |s.heap| + 1)
  }

  lemma ReleasePool(s: State, t: State, f: nat)
    requires f < |t.heap| == |s.heap| && Releasable(t.heap[f]) && |s.pool| <= s.poolCapacity
    requires t.pool == s.pool && t.freed == s.freed && t.poolCapacity == s.poolCapacity
    ensures PoolStep(s, Release(t, f)) && Release(t, f).poolCapacity == s.poolCapacity
  {
    ReleaseDispatch(t, f);
  }

  lemma HeldReleasable(s: State, f: nat)
    requires Inv(s) && (RawRole(s.core, f) || EncodedRole(s.core, f))
    ensures f < |s.heap| && Releasable(s.heap[f])
  {
    if RawRole(s.core, f) {
      assert IsCaptured(s.heap[f]);
    } else {
      assert IsEncoded(s.heap[f], s.packets);
    }
  }

  lemma ReleasingStep(s: State, e: Event)
    requires Inv(s) && CanStep(s.core, e) && (e.ReaderDiscard? || e.Deal? || e.EncoderGiveUp? || e.MuxDrop?)
    ensures PoolStep(s, Step(s, e)) && Step(s, e).poolCapacity == s.poolCapacity
  {
    var c := s.core;
    match e {
      case ReaderDiscard =>
        HeldReleasable(s, c.reader.frame);
        ReleasePool(s, s.(core := c.(reader := ReaderIdle)), c.reader.frame);
      case Deal(st, outcome) =>
        HeldReleasable(s, c.Get(st).encoder.raw);
        ReleasePool(s, Dealt(s, st, outcome), c.Get(st).encoder.raw);
      case EncoderGiveUp(st) =>
        HeldReleasable(s, c.Get(st).encoder.frame);
        ReleasePool(s, s.(core := SetEncoder(c, st, EncoderIdle)), c.Get(st).encoder.frame);
      case MuxDrop =>
        HeldReleasable(s, c.mux.frame);
        ReleasePool(s, s.(core := c.(mux := MuxIdle)), c.mux.frame);
    }
  }

  lemma WritingStep(s: State)
    requires Inv(s) && s.core.mux.Muxing?
    ensures PoolStep(s, Step(s, MuxWrite)) && Step(s, MuxWrite).poolCapacity == s.poolCapacity
  {
    var (c, f) := (s.core, s.core.mux.frame);
    HeldReleasable(s, f);
    var first := NextOrigin(s.firstPts, FrameAt(s, f).dts);
    var frame := Normalised(first, FrameAt(s, f));
    ReleasePool(s, s.(core := c.(mux := MuxIdle), firstPts := first,
                      written := s.written + [Written(c.mux.stream, frame)],
                      heap := s.heap[f := s.heap[f].(frame := frame)]), f);
  }

  lemma CleaningStep(s: State)
    requires Inv(s) && s.core.reader.Cleaning?
    ensures PoolStep(s, Step(s, CleanNext)) && Step(s, CleanNext).poolCapacity == s.poolCapacity
  {
    var (c, q) := (s.core, s.core.Get(s.core.reader.locked).enc);
    if q != [] {
      var (verdict, counter) := CleanStream(c.reader.locked, c.reader.counter, FrameAt(s, q[0]));
      HeldReleasable(s, q[0]);
      if verdict.clean {
        ReleasePool(s, s.(core := CleanTake(c, counter)), q[0]);
      }
    }
  }

  lemma TakingStep(s: State, e: Event)
    requires Inv(s) && CanStep(s.core, e) && (e.Capture? || e.Wrap?)
    ensures PoolStep(s, Step(s, e)) && Step(s, e).poolCapacity == s.poolCapacity
  {
  }

  lemma {:induction false} EachPoolStep(s: State, e: Event)
    requires Inv(s) && CanStep(s.core, e)
    ensures PoolStep(s, Step(s, e)) && Step(s, e).poolCapacity == s.poolCapacity
  {
    match e {
      case Capture(_, _) | Wrap(_) => TakingStep(s, e);
      case CleanNext => CleaningStep(s);
      case MuxWrite => WritingStep(s);
      case Route(_) =>
      case _ => ReleasingStep(s, e);
    }
  }

  lemma {:induction false} CapacityAlways(cfg: Config, poolCapacity: nat, es: seq<Event>)
    requires Legal(Init(cfg, poolCapacity), es)
    ensures Run(Init(cfg, poolCapacity), es).poolCapacity == poolCapacity
    decreases |es|
  {
    if es != [] {
      CapacityAlways(cfg, poolCapacity, es[..|es| - 1]);
      RunRefines(cfg, poolCapacity, es[..|es| - 1]);
      EachPoolStep(Run(Init(cfg, poolCapacity), es[..|es| - 1]), es[|es| - 1]);
    }
  }

  /** What one step does to the count, for a pool that holds all frames there have been. */
  lemma HighStep(s: State, t: State, high: nat, now: nat)
    requires PoolStep(s, t) && t.poolCapacity == s.poolCapacity && |t.pool| <= t.poolCapacity
    requires s.freed == [] && |s.heap| == high
    requires |t.heap| == |t.pool| + |t.freed| + now
    requires high <= s.poolCapacity
    ensures t.freed == [] && |t.heap| == if high < now then now else high
  {
  }

  lemma Counted(cfg: Config, poolCapacity: nat, es: seq<Event>)
    requires Legal(Init(cfg, poolCapacity), es)
    ensures PLegal(PInit(cfg), es)
    ensures var s := Run(Init(cfg, poolCapacity), es);
            && Inv(s) && |s.heap| == |s.pool| + |s.freed| + InUse(PRun(PInit(cfg), es).core)
  {
    RunRefines(cfg, poolCapacity, es);
    var s := Run(Init(cfg, poolCapacity), es);
    HoldersCount(s);
    InUseMapped(Carried(s.heap), s.core);
  }

  /** Recycling works: a pool that can hold as many frames as the pipeline ever has at a time never gives one back to
      the allocator, and exactly that many are ever allocated, however long the run is. */
  lemma {:induction false} PoolRecycles(cfg: Config, poolCapacity: nat, es: seq<Event>)
    requires Legal(Init(cfg, poolCapacity), es)
    ensures PLegal(PInit(cfg), es)
    ensures HighWater(cfg, es) <= poolCapacity ==>
              var s := Run(Init(cfg, poolCapacity), es); s.freed == [] && |s.heap| == HighWater(cfg, es)
    decreases |es|
  {
    Counted(cfg, poolCapacity, es);
    if es != [] && HighWater(cfg, es) <= poolCapacity {
      var before := es[..|es| - 1];
      PoolRecycles(cfg, poolCapacity, before);
      CapacityAlways(cfg, poolCapacity, before);
      Counted(cfg, poolCapacity, before);
      var s := Run(Init(cfg, poolCapacity), before);
      EachPoolStep(s, es[|es| - 1]);
      HighStep(s, Run(Init(cfg, poolCapacity), es), HighWater(cfg, before), InUse(PRun(PInit(cfg), es).core));
    }
  }

  /** With a smaller pool, the frames that exist at a time are at most those in use and a full pool. */
  lemma FramesBounded(cfg: Config, poolCapacity: nat, es: seq<Event>)
    requires Legal(Init(cfg, poolCapacity), es)
    ensures PLegal(PInit(cfg), es)
    ensures var s := Run(Init(cfg, poolCapacity), es);
            |s.heap| - |s.freed| <= InUse(PRun(PInit(cfg), es).core) + poolCapacity
  {
    Counted(cfg, poolCapacity, es);
    CapacityAlways(cfg, poolCapacity, es);
  }
}
