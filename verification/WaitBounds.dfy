// The share of time spent waiting for frames, over whole runs of a statistician, and whom the program serves first.
module WaitBounds {
  import opened MediaFrames
  import opened KoalaMuxers
  import opened Statisticians
  import opened StatisticianRuns

  // ----- The waiting-time bound -----

  ghost function TotalWait(s: State): nat {
    WaitSum(s.stats.streams, |s.stats.streams|)
  }

  /** At time `now` the waits of the period fit in the time since the last stream's period started. */
  ghost predicate WaitFits(s: State, now: int) {
    TotalWait(s) * 1000 <= now - PeriodStart(s.stats)
  }

  /** At every moment of every run. */
  ghost predicate AlwaysFits(env: Environment) {
    forall es :: Legal(env, es) ==> WaitFits(Run(env, es), Run(env, es).now)
  }

  /** Resets only between frames, and the stream registered last served first. */
  ghost predicate Disciplined(env: Environment) {
    env.kinds == [] || (env.resetsBetweenFrames && (env.lastServedFirst || |env.kinds| == 1))
  }

  /** A reset under way has cleared the streams before `next`, and that one too if it is about to restart it. */
  ghost predicate ClearedOk(s: State) {
    && (s.ResetUnderWay() ==> s.mux == Outside && s.next < |s.stats.streams|)
    && (forall k | 0 <= k < |s.stats.streams| && (k < s.next || (k == s.next && s.part == Restart)) ::
          s.stats.streams[k].statistics.wait_ms == 0)
  }

  /** The wait under way, and what is counted of it, still has its place in the period. */
  ghost predicate RoomOk(s: State) {
    match s.mux
    case Outside | Beginning(_) | Stamping(_) => WaitFits(s, s.now)
    case Waiting(i) =>
      && i < |s.stats.streams| && 0 <= s.stats.streams[i].frame_start_time <= s.now
      && WaitFits(s, s.stats.streams[i].frame_start_time)
    case Counting(i, _, waited, _) =>
      i < |s.stats.streams| && (TotalWait(s) + waited) * 1000 <= s.now - PeriodStart(s.stats)
  }

  ghost predicate WaitInv(s: State) {
    && s.now >= 0 && ClearedOk(s) && RoomOk(s)
    && (PeriodStart(s.stats) == 0 ==>
          && TotalWait(s) == 0 && (s.ResetUnderWay() || NeverServed(s.stats))
          && (s.mux == Outside || (s.mux.Beginning? && s.mux.index + 1 == |s.stats.streams|)))
    && (s.mux.Beginning? && s.mux.index + 1 == |s.stats.streams| ==> PeriodStart(s.stats) == 0)
  }

  lemma {:induction false} WaitSumUpdate(streams: seq<StreamStatistics>, i: nat, x: StreamStatistics, n: nat)
    requires i < |streams| && n <= |streams|
    ensures WaitSum(streams[i := x], n)
            == WaitSum(streams, n) + if i < n then x.statistics.wait_ms - streams[i].statistics.wait_ms else 0
  {
    if n > 0 {
      WaitSumUpdate(streams, i, x, n - 1);
    }
  }

  lemma {:induction false} WaitSumZero(streams: seq<StreamStatistics>, n: nat)
    requires n <= |streams| && forall k | 0 <= k < n :: streams[k].statistics.wait_ms == 0
    ensures WaitSum(streams, n) == 0
  {
    if n > 0 {
      WaitSumZero(streams, n - 1);
    }
  }

  lemma WaitBegin(s: State, e: Event)
    requires e.Begin? && WaitInv(s) && Enabled(s, e) && !s.ResetUnderWay()
    requires NeverServed(s.stats) ==> e.index + 1 == |s.stats.streams|
    ensures WaitInv(Step(s, e))
  {
  }

  lemma WaitStart(s: State, e: Event)
    requires (e.SetStart? || e.Stamp?) && WaitInv(s) && Enabled(s, e)
    ensures WaitInv(Step(s, e))
  {
    WaitSumUpdate(s.stats.streams, e.index, Step(s, e).stats.streams[e.index], |s.stats.streams|);
  }

  lemma WaitGot(s: State, e: Event)
    requires (e.Got? || e.Missed?) && WaitInv(s) && Enabled(s, e)
    ensures WaitInv(Step(s, e))
  {
  }

  lemma WaitCount(s: State, e: Event)
    requires e.Count? && WaitInv(s) && Enabled(s, e)
    ensures WaitInv(Step(s, e))
  {
    WaitSumUpdate(s.stats.streams, e.index, Step(s, e).stats.streams[e.index], |s.stats.streams|);
  }

  lemma ClearedStep(s: State, e: Event)
    requires e.ResetNext? && ClearedOk(s) && Enabled(s, e) && s.mux == Outside
    ensures ClearedOk(Step(s, e))
  {
  }

  /** The last stream's period starts anew, or has no start for a moment; all waits are cleared by then. */
  lemma LastCleared(s: State, e: Event)
    requires e.ResetNext? && ClearedOk(s) && Enabled(s, e) && s.mux == Outside
    requires e.index + 1 == |s.stats.streams| && !e.part.Fold?
    ensures TotalWait(Step(s, e)) == 0
  {
    WaitSumZero(Step(s, e).stats.streams, |s.stats.streams|);
  }

  lemma WaitReset(s: State, e: Event)
    requires e.ResetNext? && WaitInv(s) && Enabled(s, e) && s.mux == Outside
    ensures WaitInv(Step(s, e))
  {
    ClearedStep(s, e);
    WaitSumUpdate(s.stats.streams, e.index, Step(s, e).stats.streams[e.index], |s.stats.streams|);
    if e.index + 1 == |s.stats.streams| && !e.part.Fold? {
      LastCleared(s, e);
    }
  }

  lemma {:induction false} WaitInvAlways(env: Environment, es: seq<Event>)
    requires Disciplined(env) && Legal(env, es)
    ensures WaitInv(Run(env, es)) && |Run(env, es).stats.streams| == |Registered(env.kinds).streams|
    decreases |es|
  {
    RegisteredInOrder(env.kinds);
    StreamsStay(env, es);
    if es == [] {
      WaitSumZero(Init(env).stats.streams, |Init(env).stats.streams|);
    } else {
      var (s, e) := (Run(env, es[..|es| - 1]), es[|es| - 1]);
      WaitInvAlways(env, es[..|es| - 1]);
      match e {
        case Begin(_, _) => WaitBegin(s, e);
        case SetStart(_, _) | Stamp(_, _) => WaitStart(s, e);
        case Got(_, _, _) | Missed => WaitGot(s, e);
        case Count(_, _) => WaitCount(s, e);
        case ResetNext(_, _, _) => WaitReset(s, e);
      }
    }
  }

  /** The waiting-time bound: in a disciplined environment, at every moment of every run the counted waits fit in
      the time since the last-registered stream's period began; so the bandwidth factor, in exact arithmetic, lies
      between 0 and 1 whenever it is asked for. */
  lemma {:induction false} WaitBound(env: Environment, es: seq<Event>, now: int)
    requires Disciplined(env) && Legal(env, es) && Run(env, es).now <= now
    ensures var (wait, time) := (TotalWait(Run(env, es)), now - PeriodStart(Run(env, es).stats));
            && wait * 1000 <= time
            && (time > 0 ==> 0.0 <= 1.0 - ((wait as real / 1000.0) / (time as real / 1000000.0)) <= 1.0)
  {
    WaitInvAlways(env, es);
    FitsMeanwhile(Run(env, es), now);
    var (wait, time) := (TotalWait(Run(env, es)), now - PeriodStart(Run(env, es).stats));
    if time > 0 {
      FactorRange(wait, time);
    }
  }

  lemma FitsMeanwhile(s: State, now: int)
    requires WaitInv(s) && s.now <= now
    ensures WaitFits(s, now)
  {
  }

  lemma FactorRange(wait: nat, time: nat)
    requires wait * 1000 <= time && time > 0
    ensures 0.0 <= 1.0 - ((wait as real / 1000.0) / (time as real / 1000000.0)) <= 1.0
  {
    var (x, y) := (wait as real / 1000.0, time as real / 1000000.0);
    assert 0.0 <= x <= y && y > 0.0;
    QuotientRange(x, y);
  }

  lemma QuotientRange(x: real, y: real)
    requires 0.0 <= x <= y && y > 0.0
    ensures 0.0 <= x / y <= 1.0
  {
    var q := x / y;
    assert q * y == x;
  }

  /** One stream has waited 100 ms, on a new statistician. */
  ghost predicate OneWait(s: Stats, i: nat) {
    && i < |s.streams|
    && s.streams[i].statistics.wait_ms == 100
    && forall k | 0 <= k < |s.streams| && k != i :: s.streams[k].statistics.wait_ms == 0
  }

  lemma {:induction false} OneWaitTotal(s: Stats, i: nat, n: nat)
    requires OneWait(s, i) && n <= |s.streams|
    ensures WaitSum(s.streams, n) == if i < n then 100 else 0
  {
    if n > 0 {
      OneWaitTotal(s, i, n - 1);
    }
  }

  /** All periods have just been reset, and the frame that the last stream waits for was begun long before. */
  lemma {:induction false} EndAfterReset(s: Stats, n: nat)
    requires |s.streams| == n > 0 && s.streams[n - 1].frame_start_time == 1
    requires forall k | 0 <= k < n :: s.streams[k].statistics == ZERO.(start_time := 100001)
    ensures var t := Ended(s, n - 1, 0, 100002);
            |t.streams| == n && WaitSum(t.streams, n) == 100 && PeriodStart(t) == 100001
  {
    OneWaitTotal(Ended(s, n - 1, 0, 100002), n - 1, n);
  }

  /** The first event of a run: the last stream waits for a frame. */
  lemma {:induction false} LastBegun(env: Environment) returns (es: seq<Event>)
    requires env.kinds != []
    ensures Legal(env, es)
    ensures var (s, n) := (Run(env, es), |Registered(env.kinds).streams|);
            && |s.stats.streams| == n > 0 && s.now == 1 && s.mux == Waiting(n - 1) && !s.ResetUnderWay()
            && s.stats.streams[n - 1].frame_start_time == 1
  {
    RegisteredInOrder(env.kinds);
    es := Start(env);
    es := BeginRun(env, es, |Registered(env.kinds).streams| - 1, 1, 1, 1);
  }

  /** Without the rule on resets: a frame of the last stream is begun, the streams are reset 100 ms later, and the
      frame ends one microsecond after that. Its wait is counted in a period that is one microsecond old. */
  lemma {:induction false} ResetMidWait(env: Environment) returns (es: seq<Event>)
    requires env.kinds != [] && !env.resetsBetweenFrames
    ensures Legal(env, es) && !WaitFits(Run(env, es), Run(env, es).now)
  {
    var begun := LastBegun(env);
    var clock := seq(|Run(env, begun).stats.streams|, i => 100001);
    var reset := ResetRun(env, begun, clock);
    EndAfterReset(Run(env, reset).stats, |clock|);
    es := EndRun(env, reset, 0, 100002);
  }

  /** The first frame of stream 0 has been waited for before the last stream is begun. */
  ghost predicate OtherWaited(s: State, n: nat) {
    && |s.stats.streams| == n > 1 && s.mux == Outside && !s.ResetUnderWay() && s.now == 100001
    && OneWait(s.stats, 0) && PeriodStart(s.stats) == 0
  }

  lemma FirstWait(s: State)
    requires |s.stats.streams| > 1 && s.now == 0 && s.mux == Outside && !s.ResetUnderWay()
    requires forall k | 0 <= k < |s.stats.streams| :: s.stats.streams[k].statistics == ZERO
    ensures OtherWaited(State(Ended(Begun(s.stats, 0, 1, 1, 1), 0, 0, 100001), 100001, Outside, 0, Fold(Size)),
                        |s.stats.streams|)
  {
  }

  lemma {:induction false} OtherWaits(env: Environment) returns (es: seq<Event>)
    requires |env.kinds| > 1 && !env.lastServedFirst
    ensures Legal(env, es) && OtherWaited(Run(env, es), |Registered(env.kinds).streams|)
  {
    RegisteredInOrder(env.kinds);
    es := Start(env);
    FirstWait(Run(env, es));
    es := BeginRun(env, es, 0, 1, 1, 1);
    es := EndRun(env, es, 0, 100001);
  }

  lemma BeginAfterOther(s: State, n: nat)
    requires OtherWaited(s, n)
    ensures !WaitFits(s.(stats := Begun(s.stats, n - 1, 100001, 100001, 100001)), 100001)
  {
    OneWaitTotal(Begun(s.stats, n - 1, 100001, 100001, 100001), 0, n);
  }

  /** Without the rule on the first stream: another stream waits 100 ms before the last one is begun. */
  lemma {:induction false} OtherServedFirst(env: Environment) returns (es: seq<Event>)
    requires |env.kinds| > 1 && !env.lastServedFirst
    ensures Legal(env, es) && !WaitFits(Run(env, es), Run(env, es).now)
  {
    var n := |Registered(env.kinds).streams|;
    var waited := OtherWaits(env);
    BeginAfterOther(Run(env, waited), n);
    es := BeginRun(env, waited, n - 1, 100001, 100001, 100001);
  }

  /** The discipline is exact: the waits fit in the period at every moment of every run if and only if resets come
      between frames and the stream registered last is served first (or there is only one). */
  lemma WaitBoundIff(env: Environment)
    ensures AlwaysFits(env) <==> Disciplined(env)
  {
    if Disciplined(env) {
      forall es | Legal(env, es)
        ensures WaitFits(Run(env, es), Run(env, es).now)
      {
        WaitBound(env, es, Run(env, es).now);
      }
    } else if !env.resetsBetweenFrames {
      var es := ResetMidWait(env);
    } else {
      var es := OtherServedFirst(env);
    }
  }

  // ----- Whom the program serves first -----

  /** The streams that a fresh mux thread with both streams asks for a frame, one for each turn of its loop. */
  ghost function Asked(w: World, n: nat): seq<StreamType> {
    if n == 0 then []
    else
      var m := Turns(w, FreshMux(true, true), n - 1);
      Asked(w, n - 1) + if m.Finished() then [] else [m.Selected()]
  }

  lemma {:induction false} VideoAskedFirst(w: World, n: nat)
    ensures Asked(w, n) != [] ==> Asked(w, n)[0] == Video
  {
    if n > 0 {
      VideoAskedFirst(w, n - 1);
      if n == 1 {
        assert Turns(w, FreshMux(true, true), 0).Selected() == Video;
      } else {
        FirstTurnAsks(w, n - 1);
      }
    }
  }

  lemma {:induction false} FirstTurnAsks(w: World, n: nat)
    requires n > 0
    ensures Asked(w, n) != []
  {
    if n == 1 {
      assert !Turns(w, FreshMux(true, true), 0).Finished();
    } else {
      FirstTurnAsks(w, n - 1);
    }
  }

  /** The streams that a run begins frames on. */
  ghost function Begins(kinds: seq<StreamType>, es: seq<Event>): seq<StreamType> {
    if es == [] then []
    else
      var e := es[|es| - 1];
      Begins(kinds, es[..|es| - 1]) + if e.Begin? && e.index < |kinds| then [kinds[e.index]] else []
  }

  /** The order in which the prepare thread registers both streams. */
  const BOTH := [Audio, Video]

  /** Video is served, or its first begin is under way. */
  ghost predicate ServedSoon(s: State) {
    !NeverServed(s.stats) || s.mux == Beginning(1) || s.mux == Stamping(1)
  }

  lemma ServedStep(s: State, e: Event)
    requires |s.stats.streams| == 2 && Enabled(s, e) && s.now >= 0
    ensures |Step(s, e).stats.streams| == 2 && Step(s, e).now >= 0
    ensures ServedSoon(s) || (e.Begin? && e.index == 1) ==> ServedSoon(Step(s, e))
  {
  }

  lemma {:induction false} ServedOnceBegun(env: Environment, es: seq<Event>)
    requires env.kinds == BOTH && Legal(env, es)
    ensures |Run(env, es).stats.streams| == 2 && Run(env, es).now >= 0
    ensures Video in Begins(BOTH, es) ==> ServedSoon(Run(env, es))
    decreases |es|
  {
    RegisteredInOrder(env.kinds);
    if es != [] {
      ServedOnceBegun(env, es[..|es| - 1]);
      ServedStep(Run(env, es[..|es| - 1]), es[|es| - 1]);
    }
  }

  ghost function LastFirst(env: Environment): Environment {
    env.(lastServedFirst := true)
  }

  lemma {:induction false} VideoFirstIsLegal(env: Environment, es: seq<Event>)
    requires env.kinds == BOTH && Legal(env, es)
    requires Begins(BOTH, es) != [] ==> Begins(BOTH, es)[0] == Video
    ensures Legal(LastFirst(env), es) && Run(LastFirst(env), es) == Run(env, es)
    decreases |es|
  {
    if es != [] {
      var before := es[..|es| - 1];
      VideoFirstIsLegal(env, before);
      ServedOnceBegun(env, before);
    }
  }

  /** Why the program serves first what it registers last: the prepare thread registers audio before video, and any run
      whose begins are those of a mux thread, for whatever sources, write results and moments of `end`, keeps the
      rule, with resets at any moment. */
  lemma {:induction false} VideoLastAndFirst(w: World, n: nat, env: Environment, es: seq<Event>)
    requires env.kinds == BOTH && Legal(env, es) && Begins(BOTH, es) <= Asked(w, n)
    ensures Legal(LastFirst(env), es) && Run(LastFirst(env), es) == Run(env, es)
  {
    VideoAskedFirst(w, n);
    VideoFirstIsLegal(env, es);
  }

  /** So the program needs only the rule on resets for its bandwidth factor. */
  lemma {:induction false} ProgramFits(w: World, n: nat, env: Environment, es: seq<Event>)
    requires env.kinds == BOTH && env.resetsBetweenFrames && Legal(env, es) && Begins(BOTH, es) <= Asked(w, n)
    ensures WaitFits(Run(env, es), Run(env, es).now)
  {
    VideoLastAndFirst(w, n, env, es);
    WaitBound(LastFirst(env), es, Run(env, es).now);
  }
}
