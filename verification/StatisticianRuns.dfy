// Whole runs of a statistician, statement by statement: what its counters and start times account for while one
// thread counts frames and another resets.
module StatisticianRuns {
  import opened MediaFrames
  import opened Statisticians

  // ----- Registration -----

  /** A new statistician to which streams of these kinds have been added, in this order. */
  ghost function Registered(kinds: seq<StreamType>): Stats {
    if kinds == [] then Stats([], 0)
    else AddedStream(Registered(kinds[..|kinds| - 1]), kinds[|kinds| - 1])
  }

  /** The first eight are kept, in the order of registration and unused; the others are refused. */
  lemma {:induction false} RegisteredInOrder(kinds: seq<StreamType>)
    ensures var s := Registered(kinds);
            && s.start_time == 0
            && |s.streams| == (if |kinds| < 8 then |kinds| else 8)
            && forall k | 0 <= k < |s.streams| :: s.streams[k] == Unused(kinds[k])
  {
    if kinds != [] {
      RegisteredInOrder(kinds[..|kinds| - 1]);
    }
  }

  // ----- Whole runs, statement by statement -----

  // No lock protects the counters: the mux thread counts a frame while another thread may be resetting. So each
  // statement that changes a counter is a step of its own, in both threads.

  /** The statements of a reset on one stream: four sums, `memset`, and the new start time. */
  datatype Part = Fold(k: Counter) | Clear | Restart

  function NextPart(p: Part): Part {
    match p
    case Fold(Size) => Fold(Frames)
    case Fold(Frames) => Fold(WaitMs)
    case Fold(WaitMs) => Fold(WaitTimes)
    case Fold(WaitTimes) => Clear
    case Clear => Restart
    case Restart => Fold(Size)
  }

  /** The counter has been added to the total, but not been cleared yet; `p` is the next statement. */
  predicate Folded(p: Part, k: Counter) {
    match p
    case Fold(Size) => false
    case Fold(Frames) => k.Size?
    case Fold(WaitMs) => k.Size? || k.Frames?
    case Fold(WaitTimes) => !k.WaitTimes?
    case Clear => true
    case Restart => false
  }

  function ResetPart(stream: StreamStatistics, p: Part, now: int): StreamStatistics {
    match p
    case Fold(k) => stream.(total := stream.total.Add(k, stream.statistics.At(k)))
    case Clear => stream.(statistics := ZERO)
    case Restart => stream.(statistics := stream.statistics.(start_time := now))
  }

  /** The mux thread. */
  datatype MuxPc =
    | Outside
    | Beginning(index: nat)      // has found the start time of the period unset
    | Stamping(index: nat)       // about to note when the wait begins
    | Waiting(index: nat)        // for a frame
    | Counting(index: nat, size: nat, waited: nat, next: Counter)   // from counter `next` on

  /** What a frame adds to each counter. */
  function Amount(k: Counter, size: nat, waited: nat): nat {
    match k
    case Size => size
    case Frames => 1
    case WaitMs => waited
    case WaitTimes => if waited > 0 then 1 else 0
  }

  function AfterCount(pc: MuxPc): MuxPc
    requires pc.Counting?
  {
    match pc.next
    case Frames => pc.(next := Size)
    case Size => if pc.waited > 0 then pc.(next := WaitTimes) else Outside
    case WaitTimes => pc.(next := WaitMs)
    case WaitMs => Outside
  }

  /** The streams registered before the run, and what the threads keep to. */
  datatype Environment = Environment(
    kinds: seq<StreamType>,
    lastServedFirst: bool,       // no stream is served before the one registered last
    resetsBetweenFrames: bool,   // no reset is under way while a frame is waited for or counted
    countsOutsideTurns: bool,    // no counter is raised after a reset has summed it and before it clears it
    restartsOutsideBegins: bool) // no reset restarts a period that a begin has found unset and is about to start

  /** The mux thread begins a frame, gets it or not, and counts it; another thread resets. */
  datatype Event =
    | Begin(index: nat, now: int)
    | SetStart(index: nat, now: int)
    | Stamp(index: nat, now: int)
    | Got(index: nat, size: nat, now: int)
    | Missed
    | Count(index: nat, k: Counter)
    | ResetNext(index: nat, part: Part, now: int)

  /** The statistician, the last time read, the mux thread, and the next statement of a reset; a reset that is
      not under way is about to begin with the first stream. */
  datatype State = State(stats: Stats, now: int, mux: MuxPc, next: nat, part: Part)
  {
    predicate ResetUnderWay() {
      next > 0 || part != Fold(Size)
    }
  }

  ghost function Init(env: Environment): State {
    State(Registered(env.kinds), 0, Outside, 0, Fold(Size))
  }

  /** One mux thread and one thread that resets; the clock is positive and never goes back. */
  ghost predicate Enabled(s: State, e: Event) {
    match e
    case Begin(index, now) => s.mux == Outside && index < |s.stats.streams| && 0 < now && s.now <= now
    case SetStart(index, now) => s.mux == Beginning(index) && index < |s.stats.streams| && 0 < now && s.now <= now
    case Stamp(index, now) => s.mux == Stamping(index) && index < |s.stats.streams| && 0 < now && s.now <= now
    case Got(index, _, now) => s.mux == Waiting(index) && index < |s.stats.streams| && s.now <= now
    case Missed => s.mux.Waiting?
    case Count(index, k) => s.mux.Counting? && index == s.mux.index < |s.stats.streams| && k == s.mux.next
    case ResetNext(index, part, now) =>
      index == s.next < |s.stats.streams| && part == s.part && 0 < now && s.now <= now
  }

  /** The stream registered last has not been begun. */
  ghost predicate NeverServed(s: Stats) {
    s.streams == [] || s.streams[|s.streams| - 1].frame_start_time == 0
  }

  ghost predicate Allowed(env: Environment, s: State, e: Event) {
    && (env.lastServedFirst && e.Begin? && NeverServed(s.stats) ==> e.index + 1 == |s.stats.streams|)
    && (env.resetsBetweenFrames ==> (e.ResetNext? ==> s.mux == Outside) && (e.Begin? ==> !s.ResetUnderWay()))
    && (env.countsOutsideTurns && e.Count? ==> !(e.index == s.next && Folded(s.part, e.k)))
    && (env.restartsOutsideBegins && e.ResetNext? && e.part == Restart ==> s.mux != Beginning(e.index))
  }

  ghost function WithStream(s: Stats, index: nat, stream: StreamStatistics): Stats
    requires index < |s.streams|
  {
    s.(streams := s.streams[index := stream])
  }

  ghost function Step(s: State, e: Event): State
    requires Enabled(s, e)
  {
    match e
    case Begin(index, now) =>
      s.(stats := s.stats.(start_time := if s.stats.start_time == 0 then now else s.stats.start_time), now := now,
         mux := if s.stats.streams[index].statistics.start_time == 0 then Beginning(index) else Stamping(index))
    case SetStart(index, now) =>
      var stream := s.stats.streams[index];
      s.(stats := WithStream(s.stats, index, stream.(statistics := stream.statistics.(start_time := now))), now := now,
         mux := Stamping(index))
    case Stamp(index, now) =>
      s.(stats := WithStream(s.stats, index, s.stats.streams[index].(frame_start_time := now)), now := now,
         mux := Waiting(index))
    case Got(index, size, now) =>
      s.(now := now, mux := Counting(index, size, Waited(s.stats.streams[index].frame_start_time, now), Frames))
    case Missed => s.(mux := Outside)
    case Count(index, k) =>
      var stream := s.stats.streams[index];
      var counters := stream.statistics.Add(k, Amount(k, s.mux.size, s.mux.waited));
      s.(stats := WithStream(s.stats, index, stream.(statistics := counters)), mux := AfterCount(s.mux))
    case ResetNext(index, part, now) =>
      s.(stats := WithStream(s.stats, index, ResetPart(s.stats.streams[index], part, now)), now := now,
         next := if part != Restart then index else if index + 1 < |s.stats.streams| then index + 1 else 0,
         part := NextPart(part))
  }

  ghost predicate Legal(env: Environment, es: seq<Event>)
    decreases |es|, 0
  {
    es == [] ||
    var before := es[..|es| - 1];
    && Legal(env, before)
    && Enabled(Run(env, before), es[|es| - 1]) && Allowed(env, Run(env, before), es[|es| - 1])
  }

  ghost function Run(env: Environment, es: seq<Event>): State
    requires Legal(env, es)
    decreases |es|, 1
  {
    if es == [] then Init(env) else Step(Run(env, es[..|es| - 1]), es[|es| - 1])
  }

  lemma Start(env: Environment) returns (es: seq<Event>)
    ensures es == [] && Legal(env, es) && Run(env, es) == Init(env)
  {
    es := [];
  }

  lemma {:induction false} Then(env: Environment, es: seq<Event>, e: Event) returns (es': seq<Event>)
    requires Legal(env, es) && Enabled(Run(env, es), e) && Allowed(env, Run(env, es), e)
    ensures es' == es + [e] && Legal(env, es') && Run(env, es') == Step(Run(env, es), e)
  {
    es' := es + [e];
    assert es'[..|es|] == es;
  }

  /** How many streams there are never changes. */
  lemma {:induction false} StreamsStay(env: Environment, es: seq<Event>)
    requires Legal(env, es)
    ensures |Run(env, es).stats.streams| == |Registered(env.kinds).streams|
    decreases |es|
  {
    if es != [] {
      StreamsStay(env, es[..|es| - 1]);
    }
  }

  // ----- The calls as uninterrupted runs of statements -----

  /** A reset may be executed, whichever its statements, while the mux thread is there. */
  ghost predicate MayInterrupt(env: Environment, pc: MuxPc) {
    (env.resetsBetweenFrames ==> pc == Outside) && (env.restartsOutsideBegins ==> !pc.Beginning?)
  }

  /** The next statement of a reset on stream `i`, when it may be executed. */
  lemma ResetThen(env: Environment, es: seq<Event>, i: nat, part: Part, now: int) returns (es': seq<Event>)
    requires Legal(env, es) && Enabled(Run(env, es), ResetNext(i, part, now))
    requires MayInterrupt(env, Run(env, es).mux)
    ensures es' == es + [ResetNext(i, part, now)]
    ensures Legal(env, es') && Run(env, es') == Step(Run(env, es), ResetNext(i, part, now))
  {
    es' := Then(env, es, ResetNext(i, part, now));
  }

  /** The statements of one turn do together what `ResetStream` does. */
  lemma TurnIsReset(stream: StreamStatistics, now: int)
    ensures var folded := ResetPart(ResetPart(ResetPart(ResetPart(
                            stream, Fold(Size), now), Fold(Frames), now), Fold(WaitMs), now), Fold(WaitTimes), now);
            ResetPart(ResetPart(folded, Clear, now), Restart, now) == ResetStream(stream, now)
  {
  }

  ghost predicate Ascending(now: int, clock: seq<int>) {
    && (forall i | 0 <= i < |clock| :: 0 < clock[i] && now <= clock[i])
    && (forall i, j | 0 <= i < j < |clock| :: clock[i] <= clock[j])
  }

  /** `s` with stream `i` in the middle of a reset's turn, which is about to execute `part`. */
  ghost predicate InTurn(s: State, t: State, i: nat, stream: StreamStatistics, part: Part, now: int)
    requires i < |s.stats.streams|
  {
    t == s.(stats := WithStream(s.stats, i, stream), now := now, part := part)
  }

  lemma PartStep(s: State, t: State, i: nat, stream: StreamStatistics, part: Part, now: int)
    requires i < |s.stats.streams| && s.next == i && 0 < now
    requires InTurn(s, t, i, stream, part, now) && part != Restart
    ensures Enabled(t, ResetNext(i, part, now))
    ensures InTurn(s, Step(t, ResetNext(i, part, now)), i, ResetPart(stream, part, now), NextPart(part), now)
  {
  }

  lemma FirstPart(s: State, now: int)
    requires s.next < |s.stats.streams| && s.part == Fold(Size) && 0 < now && s.now <= now
    ensures Enabled(s, ResetNext(s.next, Fold(Size), now))
    ensures InTurn(s, Step(s, ResetNext(s.next, Fold(Size), now)), s.next,
                   ResetPart(s.stats.streams[s.next], Fold(Size), now), Fold(Frames), now)
  {
  }

  lemma LastPart(s: State, t: State, i: nat, stream: StreamStatistics, now: int)
    requires i < |s.stats.streams| && s.next == i && 0 < now && InTurn(s, t, i, stream, Restart, now)
    ensures Enabled(t, ResetNext(i, Restart, now))
    ensures Step(t, ResetNext(i, Restart, now))
            == s.(stats := WithStream(s.stats, i, ResetPart(stream, Restart, now)), now := now, part := Fold(Size),
                  next := if i + 1 < |s.stats.streams| then i + 1 else 0)
  {
  }

  lemma TurnPart(env: Environment, s: State, es: seq<Event>, stream: StreamStatistics, part: Part, now: int)
    returns (es': seq<Event>)
    requires s.next < |s.stats.streams| && 0 < now && part != Restart
    requires Legal(env, es) && InTurn(s, Run(env, es), s.next, stream, part, now)
    requires MayInterrupt(env, s.mux)
    ensures Legal(env, es') && InTurn(s, Run(env, es'), s.next, ResetPart(stream, part, now), NextPart(part), now)
  {
    PartStep(s, Run(env, es), s.next, stream, part, now);
    es' := ResetThen(env, es, s.next, part, now);
  }

  /** `s` after one turn of a reset. */
  ghost function TurnDone(s: State, now: int): State
    requires s.next < |s.stats.streams|
  {
    s.(stats := WithStream(s.stats, s.next, ResetStream(s.stats.streams[s.next], now)), now := now,
       next := if s.next + 1 < |s.stats.streams| then s.next + 1 else 0)
  }

  /** With no other step in between, one turn resets its stream as `ResetAll` does. */
  lemma ResetTurn(env: Environment, es: seq<Event>, now: int) returns (es': seq<Event>)
    requires Legal(env, es)
    requires var s := Run(env, es);
             && s.next < |s.stats.streams| && s.part == Fold(Size) && 0 < now && s.now <= now
             && MayInterrupt(env, s.mux)
    ensures Legal(env, es')
    ensures Run(env, es') == TurnDone(Run(env, es), now)
  {
    var s := Run(env, es);
    var x0 := s.stats.streams[s.next];
    FirstPart(s, now);
    es' := ResetThen(env, es, s.next, Fold(Size), now);
    var x1 := ResetPart(x0, Fold(Size), now);
    es' := TurnPart(env, s, es', x1, Fold(Frames), now);
    var x2 := ResetPart(x1, Fold(Frames), now);
    es' := TurnPart(env, s, es', x2, Fold(WaitMs), now);
    var x3 := ResetPart(x2, Fold(WaitMs), now);
    es' := TurnPart(env, s, es', x3, Fold(WaitTimes), now);
    var x4 := ResetPart(x3, Fold(WaitTimes), now);
    es' := TurnPart(env, s, es', x4, Clear, now);
    LastPart(s, Run(env, es'), s.next, ResetPart(x4, Clear, now), now);
    es' := ResetThen(env, es', s.next, Restart, now);
    TurnIsReset(x0, now);
  }

  /** `s` after the first `n` turns of a reset. */
  ghost predicate PartlyReset(s: State, clock: seq<int>, n: nat, t: State)
    requires n <= |clock| == |s.stats.streams|
  {
    && |t.stats.streams| == |s.stats.streams| && t.stats.start_time == s.stats.start_time
    && (forall k | 0 <= k < n :: t.stats.streams[k] == ResetStream(s.stats.streams[k], clock[k]))
    && (forall k | n <= k < |clock| :: t.stats.streams[k] == s.stats.streams[k])
    && t.mux == s.mux && t.now == (if n == 0 then s.now else clock[n - 1])
    && t.next == (if n < |clock| then n else 0) && t.part == Fold(Size)
  }

  ghost predicate MayReset(env: Environment, s: State, clock: seq<int>) {
    && !s.ResetUnderWay() && |clock| == |s.stats.streams| && Ascending(s.now, clock)
    && MayInterrupt(env, s.mux)
  }

  lemma OneMoreReset(s: State, clock: seq<int>, n: nat, t: State)
    requires n < |clock| == |s.stats.streams| && PartlyReset(s, clock, n, t)
    ensures t.next == n && PartlyReset(s, clock, n + 1, TurnDone(t, clock[n]))
  {
  }

  lemma {:induction false} ResetPartly(env: Environment, es: seq<Event>, clock: seq<int>, n: nat)
    returns (es': seq<Event>)
    requires Legal(env, es) && MayReset(env, Run(env, es), clock) && n <= |clock|
    ensures Legal(env, es') && PartlyReset(Run(env, es), clock, n, Run(env, es'))
  {
    es' := es;
    if n > 0 {
      es' := ResetPartly(env, es, clock, n - 1);
      OneMoreReset(Run(env, es), clock, n - 1, Run(env, es'));
      es' := ResetTurn(env, es', clock[n - 1]);
    }
  }

  /** With no other step in between, the turns of a reset do what `ResetAll` does. */
  lemma ResetRun(env: Environment, es: seq<Event>, clock: seq<int>) returns (es': seq<Event>)
    requires Legal(env, es) && MayReset(env, Run(env, es), clock)
    ensures Legal(env, es')
    ensures var (s, t) := (Run(env, es), Run(env, es'));
            && t.stats == Reset(s.stats, clock) && t.mux == s.mux && !t.ResetUnderWay()
            && t.now == if clock == [] then s.now else clock[|clock| - 1]
  {
    es' := ResetPartly(env, es, clock, |clock|);
    assert Run(env, es').stats.streams == Reset(Run(env, es).stats, clock).streams;
  }

  lemma SetIsBegun(s: Stats, i: nat, first: int, second: int, third: int)
    requires i < |s.streams|
    ensures var stream := s.streams[i];
            var start := if stream.statistics.start_time == 0 then second else stream.statistics.start_time;
            var begun := stream.(statistics := stream.statistics.(start_time := start));
            Begun(s, i, first, second, third)
            == WithStream(s, i, begun.(frame_start_time := third)).(
                 start_time := if s.start_time == 0 then first else s.start_time)
  {
  }

  /** What stream 0 has got is the same after this step; `begun` is when the wait for its last frame began. */
  lemma {:induction false} ThenQuiet(env: Environment, es: seq<Event>, e: Event) returns (es': seq<Event>)
    requires Legal(env, es) && Enabled(Run(env, es), e) && Allowed(env, Run(env, es), e) && !e.Got?
    ensures Legal(env, es') && Run(env, es') == Step(Run(env, es), e)
    ensures SameArrivals(es, es')
    ensures LastBegin(es', 0) == if e.Stamp? && e.index == 0 then e.now else LastBegin(es, 0)
  {
    es' := Then(env, es, e);
    forall k: Counter
      ensures Arrived(es', 0, k) == Arrived(es, 0, k)
    {
      ArrivedSnoc(es, e, 0, k);
    }
  }

  /** Nothing has arrived on stream 0 in between. */
  ghost predicate SameArrivals(es: seq<Event>, es': seq<Event>) {
    forall k: Counter :: Arrived(es', 0, k) == Arrived(es, 0, k)
  }

  /** With no other step in between, the statements of a begin do what `OnFrameBegin` does. */
  lemma BeginRun(env: Environment, es: seq<Event>, i: nat, first: int, second: int, third: int)
    returns (es': seq<Event>)
    requires Legal(env, es) && Enabled(Run(env, es), Begin(i, first)) && Allowed(env, Run(env, es), Begin(i, first))
    requires first <= second <= third
    ensures Legal(env, es')
    ensures var s := Run(env, es);
            Run(env, es') == s.(stats := Begun(s.stats, i, first, second, third), now := third, mux := Waiting(i))
    ensures SameArrivals(es, es') && LastBegin(es', 0) == if i == 0 then third else LastBegin(es, 0)
  {
    var s := Run(env, es);
    es' := ThenQuiet(env, es, Begin(i, first));
    if s.stats.streams[i].statistics.start_time == 0 {
      es' := ThenQuiet(env, es', SetStart(i, second));
    }
    es' := ThenQuiet(env, es', Stamp(i, third));
    SetIsBegun(s.stats, i, first, second, third);
  }

  ghost function Counted(stream: StreamStatistics, k: Counter, x: nat): StreamStatistics {
    stream.(statistics := stream.statistics.Add(k, x))
  }

  /** The mux thread can count the next counter of its frame. */
  ghost predicate MayCount(env: Environment, s: State) {
    && s.mux.Counting? && s.mux.index < |s.stats.streams|
    && (env.countsOutsideTurns && s.next == s.mux.index ==> !Folded(s.part, s.mux.next))
  }

  lemma CountThen(env: Environment, es: seq<Event>) returns (es': seq<Event>)
    requires Legal(env, es) && MayCount(env, Run(env, es))
    ensures Legal(env, es')
    ensures var s := Run(env, es);
            es' == es + [Count(s.mux.index, s.mux.next)] && Run(env, es') == Step(s, Count(s.mux.index, s.mux.next))
  {
    es' := Then(env, es, Count(Run(env, es).mux.index, Run(env, es).mux.next));
  }

  /** `s` with the end of a frame on stream `i` partly counted. */
  ghost predicate InEnd(s: State, t: State, i: nat, stream: StreamStatistics, pc: MuxPc, now: int)
    requires i < |s.stats.streams|
  {
    t == s.(stats := WithStream(s.stats, i, stream), now := now, mux := pc)
  }

  lemma CountPart(env: Environment, s: State, es: seq<Event>, i: nat, stream: StreamStatistics, pc: MuxPc, now: int)
    returns (es': seq<Event>)
    requires i < |s.stats.streams| && pc.Counting? && pc.index == i && (s.next == i ==> s.part == Fold(Size))
    requires Legal(env, es) && InEnd(s, Run(env, es), i, stream, pc, now)
    ensures Legal(env, es')
    ensures InEnd(s, Run(env, es'), i, Counted(stream, pc.next, Amount(pc.next, pc.size, pc.waited)), AfterCount(pc),
                  now)
  {
    es' := CountThen(env, es);
  }

  lemma CountedIsEnded(s: Stats, i: nat, size: nat, now: int)
    requires i < |s.streams|
    ensures var (stream, waited) := (s.streams[i], Waited(s.streams[i].frame_start_time, now));
            var two := Counted(Counted(stream, Frames, 1), Size, size);
            Ended(s, i, size, now)
            == WithStream(s, i, if waited > 0 then Counted(Counted(two, WaitTimes, 1), WaitMs, waited) else two)
  {
  }

  /** With no reset of its stream in between, the statements of an end do what `OnFrameEnd` does. */
  lemma EndRun(env: Environment, es: seq<Event>, size: nat, now: int) returns (es': seq<Event>)
    requires Legal(env, es)
    requires var s := Run(env, es);
             && s.mux.Waiting? && s.mux.index < |s.stats.streams| && s.now <= now
             && (s.next == s.mux.index ==> s.part == Fold(Size))
    ensures Legal(env, es')
    ensures var s := Run(env, es);
            Run(env, es') == s.(stats := Ended(s.stats, s.mux.index, size, now), now := now, mux := Outside)
  {
    var s := Run(env, es);
    var i := s.mux.index;
    var (stream, waited) := (s.stats.streams[i], Waited(s.stats.streams[i].frame_start_time, now));
    es' := Then(env, es, Got(i, size, now));
    assert WithStream(s.stats, i, stream) == s.stats;
    es' := CountPart(env, s, es', i, stream, Counting(i, size, waited, Frames), now);
    var one := Counted(stream, Frames, 1);
    es' := CountPart(env, s, es', i, one, Counting(i, size, waited, Size), now);
    var two := Counted(one, Size, size);
    if waited > 0 {
      es' := CountPart(env, s, es', i, two, Counting(i, size, waited, WaitTimes), now);
      es' := CountPart(env, s, es', i, Counted(two, WaitTimes, 1), Counting(i, size, waited, WaitMs), now);
    }
    CountedIsEnded(s.stats, i, size, now);
  }

  // ----- What the events alone determine -----

  /** When the last frame on stream `i` was begun. */
  ghost function LastBegin(es: seq<Event>, i: nat): int {
    if es == [] then 0
    else
      var e := es[|es| - 1];
      if e.Stamp? && e.index == i then e.now else LastBegin(es[..|es| - 1], i)
  }

  /** What a frame that arrives with `e` is worth to a counter of stream `i`, if the wait for it began at `begun`. */
  ghost function Worth(begun: int, e: Event, i: nat, k: Counter): nat {
    if e.Got? && e.index == i then Amount(k, e.size, Waited(begun, e.now)) else 0
  }

  /** What all frames that have arrived on stream `i` are worth: how many there were, their bytes, and the
      milliseconds and the number of their waits of at least ten milliseconds. */
  ghost function Arrived(es: seq<Event>, i: nat, k: Counter): nat {
    if es == [] then 0
    else Arrived(es[..|es| - 1], i, k) + Worth(LastBegin(es[..|es| - 1], i), es[|es| - 1], i, k)
  }

  /** What the last frame on stream `i` still has to be counted for. */
  ghost function Pending(pc: MuxPc, i: nat, k: Counter): nat {
    if !pc.Counting? || pc.index != i then 0
    else match pc.next
      case Frames => Amount(k, pc.size, pc.waited)
      case Size => if k.Frames? then 0 else Amount(k, pc.size, pc.waited)
      case WaitTimes => if k.Frames? || k.Size? then 0 else Amount(k, pc.size, pc.waited)
      case WaitMs => if k.WaitMs? then pc.waited else 0
  }

  /** What stream `i` has counted since it was registered; a counter that a reset has summed but not yet cleared
      is not counted twice. */
  ghost function Lifetime(s: State, i: nat, k: Counter): nat
    requires i < |s.stats.streams|
  {
    var stream := s.stats.streams[i];
    stream.total.At(k) + if s.next == i && Folded(s.part, k) then 0 else stream.statistics.At(k)
  }

  /** Every counter of stream `i` shows what has arrived on it, but for what is still to be counted. */
  ghost predicate Accounted(s: State, es: seq<Event>, i: nat) {
    i < |s.stats.streams| && forall k: Counter :: Lifetime(s, i, k) + Pending(s.mux, i, k) == Arrived(es, i, k)
  }

  /** On every stream, at every moment of every run. */
  ghost predicate AlwaysAccounts(env: Environment) {
    forall es, i: nat | Legal(env, es) && i < |Registered(env.kinds).streams| :: Accounted(Run(env, es), es, i)
  }

  // ----- Conservation across resets -----

  lemma AddAt(c: Counters, k: Counter, x: nat, j: Counter)
    ensures c.Add(k, x).At(j) == c.At(j) + if j == k then x else 0
    ensures c.Add(k, x).start_time == c.start_time
  {
  }

  /** One statement of a reset. */
  lemma ResetAccounts(s: State, e: Event, i: nat, k: Counter)
    requires i < |s.stats.streams| && Enabled(s, e) && e.ResetNext?
    ensures Lifetime(Step(s, e), i, k) == Lifetime(s, i, k)
  {
    var stream := s.stats.streams[i];
    if e.index == i && e.part.Fold? {
      AddAt(stream.total, e.part.k, stream.statistics.At(e.part.k), k);
    }
  }

  /** One counter of a frame. */
  lemma CountAccounts(s: State, e: Event, i: nat, k: Counter)
    requires i < |s.stats.streams| && Enabled(s, e) && e.Count?
    requires !(e.index == s.next && Folded(s.part, e.k))
    ensures Lifetime(Step(s, e), i, k) + Pending(Step(s, e).mux, i, k) == Lifetime(s, i, k) + Pending(s.mux, i, k)
  {
    if e.index == i {
      AddAt(s.stats.streams[i].statistics, e.k, Amount(e.k, s.mux.size, s.mux.waited), k);
    }
  }

  lemma BeginAccounts(s: State, e: Event, i: nat, k: Counter)
    requires i < |s.stats.streams| && Enabled(s, e) && (e.Begin? || e.SetStart? || e.Stamp?)
    ensures Lifetime(Step(s, e), i, k) == Lifetime(s, i, k) && Pending(Step(s, e).mux, i, k) == Pending(s.mux, i, k)
  {
  }

  /** Of all steps only the arrival of a frame changes what its stream has counted and has to count: by the frame, its
      bytes, and its wait if that took ten milliseconds or more. A counter that is raised between its sum and its
      clear is left out here. */
  lemma LifetimeStep(s: State, e: Event, i: nat, k: Counter)
    requires i < |s.stats.streams| && Enabled(s, e)
    requires e.Count? ==> !(e.index == s.next && Folded(s.part, e.k))
    ensures Lifetime(Step(s, e), i, k) + Pending(Step(s, e).mux, i, k)
            == Lifetime(s, i, k) + Pending(s.mux, i, k) + Worth(s.stats.streams[i].frame_start_time, e, i, k)
  {
    match e {
      case Begin(_, _) | SetStart(_, _) | Stamp(_, _) => BeginAccounts(s, e, i, k);
      case Got(_, _, _) =>
      case Missed =>
      case Count(_, _) => CountAccounts(s, e, i, k);
      case ResetNext(_, _, _) => ResetAccounts(s, e, i, k);
    }
  }

  lemma StartStep(s: State, e: Event, i: nat)
    requires i < |s.stats.streams| && Enabled(s, e)
    ensures |Step(s, e).stats.streams| == |s.stats.streams|
    ensures Step(s, e).stats.streams[i].frame_start_time
            == if e.Stamp? && e.index == i then e.now else s.stats.streams[i].frame_start_time
  {
  }

  lemma {:induction false} StartsAreBegins(env: Environment, es: seq<Event>, i: nat)
    requires Legal(env, es) && i < |Registered(env.kinds).streams|
    ensures var s := Run(env, es);
            i < |s.stats.streams| && s.stats.streams[i].frame_start_time == LastBegin(es, i)
    decreases |es|
  {
    RegisteredInOrder(env.kinds);
    if es != [] {
      StartsAreBegins(env, es[..|es| - 1], i);
      StartStep(Run(env, es[..|es| - 1]), es[|es| - 1], i);
    }
  }

  /** With resets between frames, none is under way while the mux thread is not outside. */
  lemma {:induction false} NoResetMeanwhile(env: Environment, es: seq<Event>)
    requires env.resetsBetweenFrames && Legal(env, es)
    ensures Run(env, es).mux != Outside ==> !Run(env, es).ResetUnderWay()
    decreases |es|
  {
    if es != [] {
      NoResetMeanwhile(env, es[..|es| - 1]);
    }
  }

  lemma {:induction false} NothingArrived(es: seq<Event>, i: nat, k: Counter)
    requires es == []
    ensures Arrived(es, i, k) == 0
  {
  }

  /** The rule under which no count is lost. */
  ghost predicate CountsApart(env: Environment) {
    env.countsOutsideTurns || env.resetsBetweenFrames
  }

  lemma CountsOutside(env: Environment, es: seq<Event>)
    requires es != [] && Legal(env, es) && CountsApart(env)
    ensures var (s, e) := (Run(env, es[..|es| - 1]), es[|es| - 1]);
            e.Count? ==> !(e.index == s.next && Folded(s.part, e.k))
  {
    if env.resetsBetweenFrames {
      NoResetMeanwhile(env, es[..|es| - 1]);
    }
  }

  lemma {:induction false} CounterAccounts(env: Environment, es: seq<Event>, i: nat, k: Counter)
    requires Legal(env, es) && CountsApart(env) && i < |Registered(env.kinds).streams|
    ensures i < |Run(env, es).stats.streams|
    ensures Lifetime(Run(env, es), i, k) + Pending(Run(env, es).mux, i, k) == Arrived(es, i, k)
    decreases |es|
  {
    StreamsStay(env, es);
    if es == [] {
      RegisteredInOrder(env.kinds);
      NothingArrived(es, i, k);
    } else {
      var before := es[..|es| - 1];
      CounterAccounts(env, before, i, k);
      StartsAreBegins(env, before, i);
      CountsOutside(env, es);
      LifetimeStep(Run(env, before), es[|es| - 1], i, k);
    }
  }

  /** However often the periods are reset: if no counter is raised between the sum and the clear of a reset's turn, the
      totals and the current period together account for every frame, every byte and every counted wait. */
  lemma {:induction false} LifetimeAccounts(env: Environment, es: seq<Event>, i: nat)
    requires Legal(env, es) && CountsApart(env) && i < |Registered(env.kinds).streams|
    ensures Accounted(Run(env, es), es, i)
  {
    StreamsStay(env, es);
    forall k: Counter
      ensures i < |Run(env, es).stats.streams|
      ensures Lifetime(Run(env, es), i, k) + Pending(Run(env, es).mux, i, k) == Arrived(es, i, k)
    {
      CounterAccounts(env, es, i, k);
    }
  }

  /** Stream 0 has counted nothing. */
  ghost predicate NothingCounted(s: State) {
    && |s.stats.streams| > 0
    && s.stats.streams[0].total == ZERO && s.stats.streams[0].statistics.(start_time := 0) == ZERO
  }

  lemma StartsUnused(env: Environment)
    requires env.kinds != []
    ensures var streams := Registered(env.kinds).streams;
            |streams| > 0 && forall k | 0 <= k < |streams| :: streams[k].total == streams[k].statistics == ZERO
  {
    RegisteredInOrder(env.kinds);
  }

  lemma ServeLast(s: State, n: nat)
    requires |s.stats.streams| == n > 0 && s.now == 0 && s.mux == Outside && !s.ResetUnderWay()
    requires forall k | 0 <= k < n :: s.stats.streams[k].total == s.stats.streams[k].statistics == ZERO
    ensures var t := s.(stats := Begun(s.stats, n - 1, 1, 1, 1), now := 1);
            NothingCounted(t) && !NeverServed(t.stats)
  {
  }

  lemma NothingYet(es: seq<Event>)
    requires es == []
    ensures forall k: Counter :: Arrived(es, 0, k) == 0
  {
    forall k: Counter
      ensures Arrived(es, 0, k) == 0
    {
      NothingArrived(es, 0, k);
    }
  }

  /** The last stream is served, for the rule that it comes first, but has no frame. */
  lemma {:induction false} LastServed(env: Environment) returns (es: seq<Event>)
    requires env.kinds != []
    ensures Legal(env, es)
    ensures var s := Run(env, es);
            NothingCounted(s) && !NeverServed(s.stats) && s.mux == Outside && s.now == 1 && !s.ResetUnderWay()
    ensures forall k: Counter :: Arrived(es, 0, k) == 0
  {
    StartsUnused(env);
    es := Start(env);
    NothingYet(es);
    ServeLast(Run(env, es), |Registered(env.kinds).streams|);
    es := BeginRun(env, es, |Registered(env.kinds).streams| - 1, 1, 1, 1);
    es := ThenQuiet(env, es, Missed);
  }

  /** The first frame of stream 0 is waited for. */
  lemma {:induction false} FirstBegun(env: Environment) returns (es: seq<Event>)
    requires env.kinds != []
    ensures Legal(env, es)
    ensures var s := Run(env, es);
            && NothingCounted(s) && s.stats.streams[0].frame_start_time == 1
            && s.mux == Waiting(0) && s.now == 1 && !s.ResetUnderWay()
    ensures LastBegin(es, 0) == 1 && forall k: Counter :: Arrived(es, 0, k) == 0
  {
    es := LastServed(env);
    es := BeginRun(env, es, 0, 1, 1, 1);
  }

  lemma ArrivedSnoc(es: seq<Event>, e: Event, i: nat, k: Counter)
    ensures Arrived(es + [e], i, k) == Arrived(es, i, k) + Worth(LastBegin(es, i), e, i, k)
  {
    assert (es + [e])[..|es|] == es;
  }

  /** All four counters of stream 0 are summed and not yet cleared. */
  lemma FoldAll(env: Environment, es: seq<Event>, now: int) returns (es': seq<Event>)
    requires Legal(env, es) && !env.resetsBetweenFrames
    requires var s := Run(env, es);
             NothingCounted(s) && !s.ResetUnderWay() && 0 < now && s.now <= now
    ensures Legal(env, es')
    ensures Run(env, es') == Run(env, es).(now := now, part := Clear)
    ensures LastBegin(es', 0) == LastBegin(es, 0) && SameArrivals(es, es')
  {
    es' := es;
    es' := FoldOne(env, es', now, Size);
    es' := FoldOne(env, es', now, Frames);
    es' := FoldOne(env, es', now, WaitMs);
    es' := FoldOne(env, es', now, WaitTimes);
  }

  lemma FoldNothing(s: State, k: Counter, now: int)
    requires NothingCounted(s) && s.next == 0 && s.part == Fold(k) && 0 < now && s.now <= now
    ensures Enabled(s, ResetNext(0, Fold(k), now))
    ensures Step(s, ResetNext(0, Fold(k), now)) == s.(now := now, part := NextPart(s.part))
  {
    var t := Step(s, ResetNext(0, Fold(k), now));
    assert t.stats.streams[0] == s.stats.streams[0];
    assert t.stats.streams == s.stats.streams;
  }

  lemma FoldOne(env: Environment, es: seq<Event>, now: int, k: Counter) returns (es': seq<Event>)
    requires Legal(env, es) && !env.resetsBetweenFrames
    requires var s := Run(env, es);
             NothingCounted(s) && s.next == 0 && s.part == Fold(k) && 0 < now && s.now <= now
    ensures Legal(env, es')
    ensures Run(env, es') == Run(env, es).(now := now, part := NextPart(Run(env, es).part))
    ensures LastBegin(es', 0) == LastBegin(es, 0) && SameArrivals(es, es')
  {
    FoldNothing(Run(env, es), k, now);
    es' := ThenQuiet(env, es, ResetNext(0, Fold(k), now));
  }

  /** The mux thread counts one counter; nothing arrives. */
  lemma CountNext(env: Environment, es: seq<Event>) returns (es': seq<Event>)
    requires Legal(env, es) && MayCount(env, Run(env, es))
    ensures Legal(env, es')
    ensures var s := Run(env, es); Run(env, es') == Step(s, Count(s.mux.index, s.mux.next))
    ensures SameArrivals(es, es')
  {
    es' := ThenQuiet(env, es, Count(Run(env, es).mux.index, Run(env, es).mux.next));
  }

  /** A frame of one byte arrives on stream 0 after ten milliseconds and is counted. */
  lemma OneFrame(env: Environment, es: seq<Event>) returns (es': seq<Event>)
    requires Legal(env, es) && !env.countsOutsideTurns
    requires var s := Run(env, es);
             && |s.stats.streams| > 0 && s.mux == Waiting(0) && s.now == 1 && s.stats.streams[0].frame_start_time == 1
    requires LastBegin(es, 0) == 1 && forall k: Counter :: Arrived(es, 0, k) == 0
    ensures Legal(env, es')
    ensures var (s, t) := (Run(env, es), Run(env, es'));
            && t == s.(now := 10001, mux := Outside, stats := t.stats) && |t.stats.streams| == |s.stats.streams|
            && t.stats.streams[0].total == s.stats.streams[0].total
    ensures forall k: Counter :: Arrived(es', 0, k) == Amount(k, 1, 10) > 0
  {
    es' := Then(env, es, Got(0, 1, 10001));
    forall k: Counter
      ensures Arrived(es', 0, k) == Amount(k, 1, 10)
    {
      ArrivedSnoc(es, Got(0, 1, 10001), 0, k);
    }
    es' := CountNext(env, es');
    es' := CountNext(env, es');
    es' := CountNext(env, es');
    es' := CountNext(env, es');
  }

  /** Without the rule: a frame that ends after the four sums and before `memset` is lost, with its bytes and its wait,
      on whichever stream the reset begins with. */
  lemma {:induction false} LostFrame(env: Environment) returns (es: seq<Event>)
    requires env.kinds != [] && !CountsApart(env)
    ensures Legal(env, es) && |Run(env, es).stats.streams| > 0
    ensures var s := Run(env, es);
            && s.mux == Outside && s.part == Restart
            && forall k: Counter :: Lifetime(s, 0, k) == 0 < Arrived(es, 0, k)
  {
    es := FirstBegun(env);
    es := FoldAll(env, es, 1);
    es := OneFrame(env, es);
    es := ThenQuiet(env, es, ResetNext(0, Clear, 10001));
  }

  /** The rule is exact: nothing that arrives is ever lost from the statistics if and only if no counter is raised after
      a reset has summed it and before it clears it (as when resets come only between frames), or no stream exists. */
  lemma AccountsIff(env: Environment)
    ensures AlwaysAccounts(env) <==> CountsApart(env) || env.kinds == []
  {
    RegisteredInOrder(env.kinds);
    if CountsApart(env) || env.kinds == [] {
      forall es, i: nat | Legal(env, es) && i < |Registered(env.kinds).streams|
        ensures Accounted(Run(env, es), es, i)
      {
        LifetimeAccounts(env, es, i);
      }
    } else {
      var es := LostFrame(env);
      assert Lifetime(Run(env, es), 0, Frames) + Pending(Run(env, es).mux, 0, Frames) < Arrived(es, 0, Frames);
      assert !Accounted(Run(env, es), es, 0);
    }
  }

  // ----- When a period starts -----

  /** When the last reset of stream `i` restarted its period, unless its counters have been cleared since. */
  ghost function Restarted(es: seq<Event>, i: nat): Option<int> {
    if es == [] then None
    else
      var e := es[|es| - 1];
      if e.ResetNext? && e.index == i && e.part == Restart then Some(e.now)
      else if e.ResetNext? && e.index == i && e.part == Clear then None
      else Restarted(es[..|es| - 1], i)
  }

  /** When the first begin since stream `i` was cleared set its start time. */
  ghost function FirstSet(es: seq<Event>, i: nat): Option<int> {
    if es == [] then None
    else
      var (before, e) := (es[..|es| - 1], es[|es| - 1]);
      if e.ResetNext? && e.index == i && e.part == Clear then None
      else if FirstSet(before, i).Some? then FirstSet(before, i)
      else if e.SetStart? && e.index == i then Some(e.now)
      else None
  }

  /** The last reset of a stream that was cleared has started its period; before any, its first begin has. */
  ghost predicate PeriodOk(s: State, es: seq<Event>, i: nat) {
    && i < |s.stats.streams|
    && var start := s.stats.streams[i].statistics.start_time;
       && start == (if Restarted(es, i).Some? then Restarted(es, i).value
                    else if FirstSet(es, i).Some? then FirstSet(es, i).value else 0)
       && (start == 0 <==> Restarted(es, i) == FirstSet(es, i) == None)
  }

  /** On every stream, at every moment of every run. */
  ghost predicate AlwaysPeriods(env: Environment) {
    forall es, i: nat | Legal(env, es) && i < |Registered(env.kinds).streams| :: PeriodOk(Run(env, es), es, i)
  }

  ghost predicate RestartsApart(env: Environment) {
    env.restartsOutsideBegins || env.resetsBetweenFrames
  }

  /** A begin that is about to set a start time still finds it unset. */
  ghost predicate StillUnset(s: State) {
    && s.now >= 0
    && (s.mux.Beginning? ==> s.mux.index < |s.stats.streams|
                             && s.stats.streams[s.mux.index].statistics.start_time == 0)
  }

  lemma UnsetStep(s: State, e: Event)
    requires StillUnset(s) && Enabled(s, e)
    requires e.ResetNext? && e.part == Restart ==> s.mux != Beginning(e.index)
    ensures StillUnset(Step(s, e))
  {
  }

  lemma {:induction false} PeriodStep(s: State, es: seq<Event>, e: Event, i: nat)
    requires PeriodOk(s, es, i) && StillUnset(s) && Enabled(s, e)
    ensures PeriodOk(Step(s, e), es + [e], i)
  {
    assert (es + [e])[..|es|] == es;
    if e.Count? && e.index == i {
      AddAt(s.stats.streams[i].statistics, e.k, Amount(e.k, s.mux.size, s.mux.waited), e.k);
    }
  }

  lemma {:induction false} UnsetAlways(env: Environment, es: seq<Event>)
    requires Legal(env, es) && RestartsApart(env)
    ensures StillUnset(Run(env, es))
    decreases |es|
  {
    if es != [] {
      UnsetAlways(env, es[..|es| - 1]);
      UnsetStep(Run(env, es[..|es| - 1]), es[|es| - 1]);
    }
  }

  /** If no reset restarts a period that a begin has found unset and is about to start: the period of a stream starts
      when it was last restarted; without a restart since its counters were cleared, at its first begin since then;
      and it is 0 before both. */
  lemma {:induction false} PeriodFromHistory(env: Environment, es: seq<Event>, i: nat)
    requires Legal(env, es) && RestartsApart(env) && i < |Registered(env.kinds).streams|
    ensures PeriodOk(Run(env, es), es, i)
    decreases |es|
  {
    if es == [] {
      RegisteredInOrder(env.kinds);
      NothingHappened(es, i);
    } else {
      var before := es[..|es| - 1];
      assert es == before + [es[|es| - 1]];
      PeriodFromHistory(env, before, i);
      UnsetAlways(env, before);
      PeriodStep(Run(env, before), before, es[|es| - 1], i);
    }
  }

  lemma {:induction false} NothingHappened(es: seq<Event>, i: nat)
    requires es == []
    ensures Restarted(es, i) == FirstSet(es, i) == None
  {
  }

  lemma RestartedSnoc(es: seq<Event>, e: Event, i: nat)
    ensures e.ResetNext? && e.index == i && e.part == Restart ==> Restarted(es + [e], i) == Some(e.now)
    ensures !e.ResetNext? ==> Restarted(es + [e], i) == Restarted(es, i)
  {
    assert (es + [e])[..|es|] == es;
  }

  /** Stream 0 has been cleared and not restarted. */
  ghost predicate JustCleared(s: State) {
    && |s.stats.streams| > 0 && s.stats.streams[0].statistics == ZERO && !NeverServed(s.stats)
    && s.mux == Outside && s.next == 0 && s.part == Restart && s.now == 1
  }

  lemma ClearStream(s: State)
    requires NothingCounted(s) && !NeverServed(s.stats)
    requires s.mux == Outside && s.next == 0 && s.part == Clear && s.now == 1
    ensures Enabled(s, ResetNext(0, Clear, 1)) && JustCleared(Step(s, ResetNext(0, Clear, 1)))
  {
  }

  lemma {:induction false} FirstCleared(env: Environment) returns (es: seq<Event>)
    requires env.kinds != [] && !env.resetsBetweenFrames
    ensures Legal(env, es) && JustCleared(Run(env, es))
  {
    es := LastServed(env);
    es := FoldAll(env, es, 1);
    ClearStream(Run(env, es));
    es := Then(env, es, ResetNext(0, Clear, 1));
  }

  lemma SetLate(s: State)
    requires JustCleared(s)
    ensures Enabled(s, Begin(0, 1)) && Enabled(Step(s, Begin(0, 1)), ResetNext(0, Restart, 1))
    ensures var t := Step(Step(s, Begin(0, 1)), ResetNext(0, Restart, 1));
            && Enabled(t, SetStart(0, 2))
            && |Step(t, SetStart(0, 2)).stats.streams| > 0
            && Step(t, SetStart(0, 2)).stats.streams[0].statistics.start_time == 2
  {
  }

  /** Without the rule: after `memset` a begin finds the start time unset, the reset sets it, and the begin sets it
      again. The period starts with the begin although the reset has restarted it. */
  lemma {:induction false} RestartOverwritten(env: Environment) returns (es: seq<Event>)
    requires env.kinds != [] && !RestartsApart(env)
    ensures Legal(env, es) && !PeriodOk(Run(env, es), es, 0)
  {
    var cleared := FirstCleared(env);
    SetLate(Run(env, cleared));
    var begun := Then(env, cleared, Begin(0, 1));
    var restarted := Then(env, begun, ResetNext(0, Restart, 1));
    RestartedSnoc(begun, ResetNext(0, Restart, 1), 0);
    es := Then(env, restarted, SetStart(0, 2));
    RestartedSnoc(restarted, SetStart(0, 2), 0);
  }

  /** The rule is exact. */
  lemma PeriodIff(env: Environment)
    ensures AlwaysPeriods(env) <==> RestartsApart(env) || env.kinds == []
  {
    RegisteredInOrder(env.kinds);
    if RestartsApart(env) || env.kinds == [] {
      forall es, i: nat | Legal(env, es) && i < |Registered(env.kinds).streams|
        ensures PeriodOk(Run(env, es), es, i)
      {
        PeriodFromHistory(env, es, i);
      }
    } else {
      var es := RestartOverwritten(env);
    }
  }
}
