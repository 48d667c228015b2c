// Any number of threads on one mediaFrameQueue. Each critical section of utils/mediaThread.cpp is
// one step; a timed wait splits a call into two steps with other threads in between.
module QueueProtocol {
  import opened MediaFrames
  import opened RingBuffers
  import opened FrameQueues
  import opened Subsequences

  datatype ProducerPc = ProducerIdle | ProducerAsleep(frame: MediaFrame) | ProducerWoken(frame: MediaFrame)
  datatype ConsumerPc = ConsumerIdle | ConsumerAsleep | ConsumerWoken

  /** A frame that left the queue: handed to a consumer, or released by a cleaner. */
  datatype Removal = Removal(frame: MediaFrame, delivered: bool)

  datatype State = State(
    capacity: nat,
    contents: seq<MediaFrame>,
    producers: seq<ProducerPc>,
    consumers: seq<ConsumerPc>,
    acked: seq<MediaFrame>,      // enqueue returned 0 for these, in order
    accepted: seq<MediaFrame>,   // put really stored these, in order
    removed: seq<Removal>)       // in removal order

  /** Which callback a `cleanIf` call runs. Any other callback still takes a prefix. */
  datatype CleanPolicy = NoCallback | VideoPolicy | AudioPolicy | OtherCallback(k: nat)

  /** `wake` names the sleeper that the signal at the end of a critical section wakes, if it sleeps. */
  datatype Event =
    | EnqueueEnter(p: nat, frame: MediaFrame, wake: nat)
    | EnqueueResume(p: nat, wake: nat)
    | EnqueueTimeout(p: nat)
    | ProducerWakesUnsignalled(p: nat)
    | DequeueEnter(c: nat, wake: nat)
    | DequeueResume(c: nat, wake: nat)
    | DequeueTimeout(c: nat)
    | ConsumerWakesUnsignalled(c: nat)
    | CleanIf(policy: CleanPolicy, wake: nat)

  /** What the surroundings of the queue may do. */
  datatype Environment = Environment(
    capacity: nat,
    producers: nat,
    consumers: nat,
    unsignalledWakes: bool,  // spurious wakeups, or the EINVAL of a malformed deadline
    idleCleans: bool)        // a clean callback may keep the head of a non-empty queue

  ghost function Init(env: Environment): State {
    State(env.capacity, [], seq(env.producers, i => ProducerIdle), seq(env.consumers, i => ConsumerIdle), [], [], [])
  }

  ghost predicate Allowed(env: Environment, e: Event) {
    && (e.ProducerWakesUnsignalled? || e.ConsumerWakesUnsignalled? ==> env.unsignalledWakes)
    && (e.CleanIf? && e.policy.OtherCallback? && e.policy.k == 0 ==> env.idleCleans)
  }

  ghost predicate Enabled(s: State, e: Event) {
    match e
    case EnqueueEnter(p, _, _) => p < |s.producers| && s.producers[p].ProducerIdle?
    case EnqueueResume(p, _) => p < |s.producers| && s.producers[p].ProducerWoken?
    case EnqueueTimeout(p) => p < |s.producers| && s.producers[p].ProducerAsleep?
    case ProducerWakesUnsignalled(p) => p < |s.producers| && s.producers[p].ProducerAsleep?
    case DequeueEnter(c, _) => c < |s.consumers| && s.consumers[c].ConsumerIdle?
    case DequeueResume(c, _) => c < |s.consumers| && s.consumers[c].ConsumerWoken?
    case DequeueTimeout(c) => c < |s.consumers| && s.consumers[c].ConsumerAsleep?
    case ConsumerWakesUnsignalled(c) => c < |s.consumers| && s.consumers[c].ConsumerAsleep?
    case CleanIf(_, _) => true
  }

  ghost function WakeProducer(producers: seq<ProducerPc>, i: nat): seq<ProducerPc> {
    if i < |producers| && producers[i].ProducerAsleep? then producers[i := ProducerWoken(producers[i].frame)]
    else producers
  }

  ghost function WakeConsumer(consumers: seq<ConsumerPc>, i: nat): seq<ConsumerPc> {
    if i < |consumers| && consumers[i].ConsumerAsleep? then consumers[i := ConsumerWoken] else consumers
  }

  /** The end of `enqueue`: put, signal `pop_cond`, return 0 whatever `put` said. */
  ghost function Store(s: State, frame: MediaFrame, wake: nat): State {
    s.(contents := Bounded(s.capacity, s.contents, frame),
       accepted := if |s.contents| == s.capacity then s.accepted else s.accepted + [frame],
       acked := s.acked + [frame],
       consumers := WakeConsumer(s.consumers, wake))
  }

  /** The end of `dequeue`: get, signal `push_cond`, return the frame or NULL. */
  ghost function Deliver(s: State, wake: nat): State {
    s.(contents := Rest(s.contents),
       removed := if s.contents == [] then s.removed else s.removed + [Removal(s.contents[0], true)],
       producers := WakeProducer(s.producers, wake))
  }

  ghost function CleanedBy(policy: CleanPolicy, q: seq<MediaFrame>): (k: nat)
    ensures k <= |q|
  {
    match policy
    case NoCallback => CleanCount(None, 0, q)
    case VideoPolicy => CleanCount(Some(CleanVideo), 0, q)
    case AudioPolicy => CleanCount(Some(CleanAudio), 0, q)
    case OtherCallback(k) => if k <= |q| then k else |q|
  }

  ghost function Removals(frames: seq<MediaFrame>, delivered: bool): seq<Removal> {
    seq(|frames|, i requires 0 <= i < |frames| => Removal(frames[i], delivered))
  }

  ghost function Step(s: State, e: Event): State
    requires Enabled(s, e)
  {
    match e
    case EnqueueEnter(p, frame, wake) =>
      if |s.contents| == s.capacity then s.(producers := s.producers[p := ProducerAsleep(frame)])
      else Store(s, frame, wake)
    case EnqueueResume(p, wake) =>
      Store(s.(producers := s.producers[p := ProducerIdle]), s.producers[p].frame, wake)
    case EnqueueTimeout(p) => s.(producers := s.producers[p := ProducerIdle])
    case ProducerWakesUnsignalled(p) => s.(producers := WakeProducer(s.producers, p))
    case DequeueEnter(c, wake) =>
      if s.contents == [] then s.(consumers := s.consumers[c := ConsumerAsleep]) else Deliver(s, wake)
    case DequeueResume(c, wake) => Deliver(s.(consumers := s.consumers[c := ConsumerIdle]), wake)
    case DequeueTimeout(c) => s.(consumers := s.consumers[c := ConsumerIdle])
    case ConsumerWakesUnsignalled(c) => s.(consumers := WakeConsumer(s.consumers, c))
    case CleanIf(policy, wake) =>
      var k := CleanedBy(policy, s.contents);
      s.(contents := s.contents[k..],
         removed := s.removed + Removals(s.contents[..k], false),
         producers := WakeProducer(s.producers, wake))
  }

  /** `es` is a run: every event was possible when it happened. */
  ghost predicate Legal(env: Environment, s: State, es: seq<Event>)
    decreases |es|, 0
  {
    es == [] ||
    var before := es[..|es| - 1];
    Legal(env, s, before) && Allowed(env, es[|es| - 1]) && Enabled(Run(env, s, before), es[|es| - 1])
  }

  ghost function Run(env: Environment, s: State, es: seq<Event>): State
    requires Legal(env, s, es)
    decreases |es|, 1
  {
    if es == [] then s else Step(Run(env, s, es[..|es| - 1]), es[|es| - 1])
  }

  lemma Extend(env: Environment, s: State, es: seq<Event>, e: Event)
    requires Legal(env, s, es) && Allowed(env, e) && Enabled(Run(env, s, es), e)
    ensures Legal(env, s, es + [e]) && Run(env, s, es + [e]) == Step(Run(env, s, es), e)
  {
    assert (es + [e])[..|es|] == es;
  }

  // ----- Lossless enqueue -----

  /** Every enqueue that returned 0 has stored its frame, in call order. */
  ghost predicate AlwaysLossless(env: Environment) {
    forall es :: Legal(env, Init(env), es) ==>
      Run(env, Init(env), es).acked == Run(env, Init(env), es).accepted
  }

  /** One producer, and nothing wakes it but a step that frees a slot. */
  ghost predicate Faithful(env: Environment) {
    env.producers == 0 ||
    (env.producers == 1 && env.capacity > 0 && !env.unsignalledWakes && !env.idleCleans)
  }

  ghost predicate SlotKept(env: Environment, s: State) {
    && |s.producers| == env.producers
    && |s.contents| <= s.capacity == env.capacity
    && s.acked == s.accepted
    && forall p | 0 <= p < |s.producers| && s.producers[p].ProducerWoken? :: |s.contents| < s.capacity
  }

  lemma CleanFreesSlot(policy: CleanPolicy, q: seq<MediaFrame>)
    requires q != [] && (policy.OtherCallback? ==> policy.k > 0)
    ensures CleanedBy(policy, q) > 0
  {
    match policy {
      case NoCallback => CleanAllTakesAll(0, q);
      case VideoPolicy => CleanVideoStopsAtKey(q);
      case AudioPolicy => CleanAudioTakesHundred(0, q);
      case OtherCallback(k) =>
    }
  }

  /** What each callback takes: no callback everything, the video one the head and the delta frames behind it, the audio
      one the oldest hundred, and any other one as much as it asks for. */
  lemma CleanTakes(policy: CleanPolicy, q: seq<MediaFrame>)
    ensures var k := CleanedBy(policy, q);
            match policy
            case NoCallback => k == |q|
            case VideoPolicy =>
              q != [] ==> 1 <= k && (forall i | 1 <= i < k :: !q[i].IsKey()) && (k < |q| ==> q[k].IsKey())
            case AudioPolicy => k == if |q| < 100 then |q| else 100
            case OtherCallback(n) => k == if |q| < n then |q| else n
  {
    match policy {
      case NoCallback => CleanAllTakesAll(0, q);
      case VideoPolicy =>
        if q != [] {
          CleanVideoStopsAtKey(q);
        }
      case AudioPolicy => CleanAudioTakesHundred(0, q);
      case OtherCallback(k) =>
    }
  }

  lemma SlotStaysFree(env: Environment, s: State, e: Event)
    requires Faithful(env) && SlotKept(env, s) && Allowed(env, e) && Enabled(s, e)
    ensures SlotKept(env, Step(s, e))
  {
    if e.CleanIf? && s.contents != [] && (e.policy.OtherCallback? ==> e.policy.k > 0) {
      CleanFreesSlot(e.policy, s.contents);
    }
  }

  lemma {:induction false} SlotKeptAlways(env: Environment, es: seq<Event>)
    requires Faithful(env) && Legal(env, Init(env), es)
    ensures SlotKept(env, Run(env, Init(env), es))
    decreases |es|
  {
    if es != [] {
      SlotKeptAlways(env, es[..|es| - 1]);
      SlotStaysFree(env, Run(env, Init(env), es[..|es| - 1]), es[|es| - 1]);
    }
  }

  /** In a faithful environment a producer that re-enters after its wait still finds a free slot,
      so the enqueue that then returns 0 has appended its frame. */
  lemma WokenEnqueueAppends(env: Environment, es: seq<Event>, p: nat, wake: nat)
    requires Faithful(env) && Legal(env, Init(env), es) && Enabled(Run(env, Init(env), es), EnqueueResume(p, wake))
    ensures var s := Run(env, Init(env), es);
            Step(s, EnqueueResume(p, wake)).contents == s.contents + [s.producers[p].frame]
  {
    SlotKeptAlways(env, es);
  }

  const SAMPLE := MediaFrame(NoBuffer, 0, 0, 0, 1)

  ghost function FillEvents(n: nat): (es: seq<Event>)
    ensures |es| == n
  {
    if n == 0 then [] else FillEvents(n - 1) + [EnqueueEnter(0, SAMPLE, 0)]
  }

  ghost function Copies(n: nat): (q: seq<MediaFrame>)
    ensures |q| == n
  {
    seq(n, i => SAMPLE)
  }

  /** The queue and the two logs hold `n` samples, and all threads are idle. */
  ghost function Filled(env: Environment, n: nat): State {
    Init(env).(contents := Copies(n), acked := Copies(n), accepted := Copies(n))
  }

  lemma FillStep(env: Environment, n: nat)
    requires env.producers > 0 && n < env.capacity
    ensures Enabled(Filled(env, n), EnqueueEnter(0, SAMPLE, 0))
    ensures Step(Filled(env, n), EnqueueEnter(0, SAMPLE, 0)) == Filled(env, n + 1)
  {
    assert Copies(n) + [SAMPLE] == Copies(n + 1);
  }

  lemma {:induction false} FillQueue(env: Environment, n: nat)
    requires env.producers > 0 && n <= env.capacity
    ensures Legal(env, Init(env), FillEvents(n))
    ensures Run(env, Init(env), FillEvents(n)) == Filled(env, n)
  {
    if n == 0 {
      assert Copies(0) == [];
    } else {
      FillQueue(env, n - 1);
      FillStep(env, n - 1);
      Extend(env, Init(env), FillEvents(n - 1), EnqueueEnter(0, SAMPLE, 0));
    }
  }

  /** The first producer sleeps on a full queue. */
  lemma FullAndAsleep(env: Environment) returns (es: seq<Event>)
    requires env.producers > 0
    ensures Legal(env, Init(env), es)
    ensures var s := Run(env, Init(env), es);
            && |s.contents| == s.capacity == env.capacity && |s.acked| == |s.accepted|
            && |s.producers| == env.producers && s.producers[0] == ProducerAsleep(SAMPLE)
            && forall p | 1 <= p < env.producers :: s.producers[p].ProducerIdle?
  {
    FillQueue(env, env.capacity);
    es := FillEvents(env.capacity) + [EnqueueEnter(0, SAMPLE, 0)];
    Extend(env, Init(env), FillEvents(env.capacity), EnqueueEnter(0, SAMPLE, 0));
  }

  /** The first producer re-enters while the queue is full. */
  ghost predicate WokenOnFull(env: Environment, s: State) {
    && |s.contents| == s.capacity && |s.acked| == |s.accepted|
    && |s.producers| > 0 && s.producers[0].ProducerWoken?
  }

  lemma ResumeLoses(env: Environment, es: seq<Event>) returns (es': seq<Event>)
    requires Legal(env, Init(env), es) && WokenOnFull(env, Run(env, Init(env), es))
    ensures Legal(env, Init(env), es')
    ensures |Run(env, Init(env), es').acked| > |Run(env, Init(env), es').accepted|
  {
    es' := Then(env, es, EnqueueResume(0, 0));
  }

  /** The other producer takes the slot that the signal was for. */
  lemma SecondProducerBarges(env: Environment, es: seq<Event>) returns (es': seq<Event>)
    requires env.producers > 1 && env.capacity > 0 && Legal(env, Init(env), es)
    requires var s := Run(env, Init(env), es);
             && |s.contents| == s.capacity == env.capacity && |s.acked| == |s.accepted|
             && |s.producers| == env.producers && s.producers[0] == ProducerAsleep(SAMPLE)
             && s.producers[1].ProducerIdle?
    ensures Legal(env, Init(env), es') && WokenOnFull(env, Run(env, Init(env), es'))
  {
    es' := Then(env, es, CleanIf(OtherCallback(1), 0));
    es' := Then(env, es', EnqueueEnter(1, SAMPLE, 0));
  }

  /** A wakeup that frees no slot. */
  lemma SleeperWakes(env: Environment, es: seq<Event>, e: Event) returns (es': seq<Event>)
    requires Legal(env, Init(env), es) && Allowed(env, e)
    requires var s := Run(env, Init(env), es);
             && |s.contents| == s.capacity && |s.acked| == |s.accepted|
             && |s.producers| > 0 && s.producers[0] == ProducerAsleep(SAMPLE)
             && (e == ProducerWakesUnsignalled(0)
                 || (e.CleanIf? && e.wake == 0 && CleanedBy(e.policy, s.contents) == 0))
    ensures Legal(env, Init(env), es') && WokenOnFull(env, Run(env, Init(env), es'))
  {
    es' := Then(env, es, e);
  }

  /** Whatever hypothesis is dropped, some run acknowledges a frame that was never stored. */
  lemma {:induction false} LossyRun(env: Environment) returns (es: seq<Event>)
    requires !Faithful(env)
    ensures Legal(env, Init(env), es)
    ensures |Run(env, Init(env), es).acked| > |Run(env, Init(env), es).accepted|
  {
    var asleep := FullAndAsleep(env);
    var woken: seq<Event>;
    if env.capacity == 0 {
      woken := SleeperWakes(env, asleep, CleanIf(NoCallback, 0));
    } else if env.unsignalledWakes {
      woken := SleeperWakes(env, asleep, ProducerWakesUnsignalled(0));
    } else if env.idleCleans {
      woken := SleeperWakes(env, asleep, CleanIf(OtherCallback(0), 0));
    } else {
      woken := SecondProducerBarges(env, asleep);
    }
    es := ResumeLoses(env, woken);
  }

  lemma Then(env: Environment, es: seq<Event>, e: Event) returns (es': seq<Event>)
    requires Legal(env, Init(env), es) && Allowed(env, e) && Enabled(Run(env, Init(env), es), e)
    ensures es' == es + [e]
    ensures Legal(env, Init(env), es') && Run(env, Init(env), es') == Step(Run(env, Init(env), es), e)
  {
    Extend(env, Init(env), es, e);
    es' := es + [e];
  }

  /** "enqueue returned 0, so the frame is in the queue" holds over every interleaving exactly
      when there is at most one producer and only slot-freeing steps wake it. */
  lemma LosslessIff(env: Environment)
    ensures AlwaysLossless(env) <==> Faithful(env)
  {
    if Faithful(env) {
      forall es | Legal(env, Init(env), es)
        ensures Run(env, Init(env), es).acked == Run(env, Init(env), es).accepted
      {
        SlotKeptAlways(env, es);
      }
    } else {
      var es := LossyRun(env);
    }
  }

  // ----- Signals -----

  /** Producer `p` sleeps with this frame before a full queue. */
  ghost predicate SleepsOnFull(s: State, p: nat, frame: MediaFrame) {
    && p < |s.producers| && s.producers[p] == ProducerAsleep(frame)
    && |s.contents| == s.capacity > 0
  }

  /** The woken producer `p` can go on, and its enqueue appends its frame and returns 0. */
  ghost predicate EnqueueSucceeds(t: State, p: nat, frame: MediaFrame) {
    && Enabled(t, EnqueueResume(p, 0))
    && forall wake: nat ::
         var u := Step(t, EnqueueResume(p, wake));
         && u.contents == t.contents + [frame] && u.acked == t.acked + [frame] && u.accepted == t.accepted + [frame]
         && u.producers == t.producers[p := ProducerIdle] && u.removed == t.removed
  }

  /** A dequeue from a full queue hands out the oldest frame and wakes a sleeping producer, which then succeeds. */
  lemma DequeueWakesProducer(s: State, c: nat, p: nat, frame: MediaFrame)
    requires SleepsOnFull(s, p, frame) && c < |s.consumers| && !s.consumers[c].ConsumerAsleep?
    ensures var e := if s.consumers[c].ConsumerIdle? then DequeueEnter(c, p) else DequeueResume(c, p);
            && Enabled(s, e)
            && Step(s, e).contents == s.contents[1..]
            && Step(s, e).removed == s.removed + [Removal(s.contents[0], true)]
            && Step(s, e).consumers[c].ConsumerIdle?
            && EnqueueSucceeds(Step(s, e), p, frame)
  {
  }

  /** A clean with any callback that takes a frame wakes a sleeping producer, which then succeeds. */
  lemma CleanWakesProducer(s: State, policy: CleanPolicy, p: nat, frame: MediaFrame)
    requires SleepsOnFull(s, p, frame) && (policy.OtherCallback? ==> policy.k > 0)
    ensures var t := Step(s, CleanIf(policy, p));
            && |t.contents| < |s.contents| && t.contents == s.contents[|s.contents| - |t.contents|..]
            && EnqueueSucceeds(t, p, frame)
  {
    CleanFreesSlot(policy, s.contents);
  }

  /** A store wakes a sleeping consumer, which then gets the oldest frame. */
  lemma StoreWakesConsumer(s: State, p: nat, frame: MediaFrame, c: nat)
    requires p < |s.producers| && (s.producers[p].ProducerIdle? || s.producers[p] == ProducerWoken(frame))
    requires |s.contents| < s.capacity && c < |s.consumers| && s.consumers[c].ConsumerAsleep?
    ensures var e := if s.producers[p].ProducerIdle? then EnqueueEnter(p, frame, c) else EnqueueResume(p, c);
            && Enabled(s, e)
            && Step(s, e).contents == s.contents + [frame] && Step(s, e).acked == s.acked + [frame]
            && Step(s, e).producers[p].ProducerIdle?
            && Enabled(Step(s, e), DequeueResume(c, 0))
            && forall wake: nat ::
                 var u := Step(Step(s, e), DequeueResume(c, wake));
                 && u.contents == (s.contents + [frame])[1..]
                 && u.removed == s.removed + [Removal((s.contents + [frame])[0], true)]
                 && u.consumers == Step(s, e).consumers[c := ConsumerIdle]
  {
  }

  /** Nobody has to wait to call, a sleeper may time out or wake at any moment, and a woken one may always go on. */
  lemma CallsPossible(s: State)
    ensures forall p: nat, frame, wake | p < |s.producers| && s.producers[p].ProducerIdle? ::
              Enabled(s, EnqueueEnter(p, frame, wake))
    ensures forall p: nat | p < |s.producers| && s.producers[p].ProducerAsleep? ::
              Enabled(s, EnqueueTimeout(p)) && Enabled(s, ProducerWakesUnsignalled(p))
    ensures forall p: nat, wake | p < |s.producers| && s.producers[p].ProducerWoken? ::
              Enabled(s, EnqueueResume(p, wake))
    ensures forall c: nat, wake | c < |s.consumers| && s.consumers[c].ConsumerIdle? :: Enabled(s, DequeueEnter(c, wake))
    ensures forall c: nat | c < |s.consumers| && s.consumers[c].ConsumerAsleep? ::
              Enabled(s, DequeueTimeout(c)) && Enabled(s, ConsumerWakesUnsignalled(c))
    ensures forall c: nat, wake | c < |s.consumers| && s.consumers[c].ConsumerWoken? ::
              Enabled(s, DequeueResume(c, wake))
    ensures forall policy, wake :: Enabled(s, CleanIf(policy, wake))
  {
  }

  /** A sleeper that wakes without a signal goes on like one that was signalled, and nothing else changes. */
  lemma WakesUnsignalled(s: State, e: Event)
    requires Enabled(s, e) && (e.ProducerWakesUnsignalled? || e.ConsumerWakesUnsignalled?)
    ensures e.ProducerWakesUnsignalled? ==>
              && Step(s, e) == s.(producers := s.producers[e.p := ProducerWoken(s.producers[e.p].frame)])
              && Enabled(Step(s, e), EnqueueResume(e.p, 0))
    ensures e.ConsumerWakesUnsignalled? ==>
              && Step(s, e) == s.(consumers := s.consumers[e.c := ConsumerWoken])
              && Enabled(Step(s, e), DequeueResume(e.c, 0))
  {
  }

  // ----- Every call has one outcome -----

  ghost function Sleeping(producers: seq<ProducerPc>): nat {
    if producers == [] then 0
    else Sleeping(producers[..|producers| - 1]) + if producers[|producers| - 1].ProducerIdle? then 0 else 1
  }

  ghost function Entered(es: seq<Event>): nat {
    if es == [] then 0 else Entered(es[..|es| - 1]) + if es[|es| - 1].EnqueueEnter? then 1 else 0
  }

  ghost function TimedOuts(es: seq<Event>): nat {
    if es == [] then 0 else TimedOuts(es[..|es| - 1]) + if es[|es| - 1].EnqueueTimeout? then 1 else 0
  }

  lemma {:induction false} SleepingUpdate(producers: seq<ProducerPc>, p: nat, pc: ProducerPc)
    requires p < |producers|
    ensures Sleeping(producers[p := pc]) + (if producers[p].ProducerIdle? then 0 else 1)
            == Sleeping(producers) + if pc.ProducerIdle? then 0 else 1
  {
    var n := |producers| - 1;
    if p < n {
      SleepingUpdate(producers[..n], p, pc);
      assert producers[p := pc][..n] == producers[..n][p := pc];
    } else {
      assert producers[p := pc][..n] == producers[..n];
    }
  }

  lemma {:induction false} NobodySleeps(producers: seq<ProducerPc>)
    requires forall p | 0 <= p < |producers| :: producers[p].ProducerIdle?
    ensures Sleeping(producers) == 0
  {
    if producers != [] {
      NobodySleeps(producers[..|producers| - 1]);
    }
  }

  lemma WakeKeepsSleeping(producers: seq<ProducerPc>, p: nat)
    ensures Sleeping(WakeProducer(producers, p)) == Sleeping(producers)
  {
    if p < |producers| && producers[p].ProducerAsleep? {
      SleepingUpdate(producers, p, ProducerWoken(producers[p].frame));
    }
  }

  lemma OutcomeStep(s: State, e: Event)
    requires Enabled(s, e)
    ensures |Step(s, e).acked| + (if e.EnqueueTimeout? then 1 else 0) + Sleeping(Step(s, e).producers)
            == |s.acked| + Sleeping(s.producers) + if e.EnqueueEnter? then 1 else 0
  {
    match e {
      case EnqueueEnter(p, frame, _) => SleepingUpdate(s.producers, p, ProducerAsleep(frame));
      case EnqueueResume(p, _) => SleepingUpdate(s.producers, p, ProducerIdle);
      case EnqueueTimeout(p) => SleepingUpdate(s.producers, p, ProducerIdle);
      case ProducerWakesUnsignalled(p) => WakeKeepsSleeping(s.producers, p);
      case DequeueEnter(_, wake) => WakeKeepsSleeping(s.producers, wake);
      case DequeueResume(_, wake) => WakeKeepsSleeping(s.producers, wake);
      case CleanIf(_, wake) => WakeKeepsSleeping(s.producers, wake);
      case _ =>
    }
  }

  /** Over every interleaving, faithful or not, every enqueue that was called has returned 0, or has timed out, or is
      still in its wait. */
  lemma {:induction false} EnqueueOutcomes(env: Environment, es: seq<Event>)
    requires Legal(env, Init(env), es)
    ensures var s := Run(env, Init(env), es);
            |s.acked| + TimedOuts(es) + Sleeping(s.producers) == Entered(es)
    decreases |es|
  {
    if es == [] {
      NobodySleeps(Init(env).producers);
    } else {
      EnqueueOutcomes(env, es[..|es| - 1]);
      OutcomeStep(Run(env, Init(env), es[..|es| - 1]), es[|es| - 1]);
    }
  }

  /** A call sleeps exactly when it finds the queue full, or for a dequeue empty; a timeout ends the call and
      changes nothing else. */
  lemma SleepsIff(s: State, e: Event)
    requires Enabled(s, e) && |s.contents| <= s.capacity
    ensures e.EnqueueEnter? ==> (Step(s, e).producers[e.p] == ProducerAsleep(e.frame) <==> |s.contents| == s.capacity)
    ensures e.DequeueEnter? ==> (Step(s, e).consumers[e.c].ConsumerAsleep? <==> s.contents == [])
    ensures e.EnqueueTimeout? ==> Step(s, e) == s.(producers := s.producers[e.p := ProducerIdle])
    ensures e.DequeueTimeout? ==> Step(s, e) == s.(consumers := s.consumers[e.c := ConsumerIdle])
  {
  }

  // ----- FIFO history -----

  ghost function Frames(removed: seq<Removal>): (q: seq<MediaFrame>)
    ensures |q| == |removed|
  {
    seq(|removed|, i requires 0 <= i < |removed| => removed[i].frame)
  }

  ghost function Delivered(removed: seq<Removal>): seq<MediaFrame> {
    if removed == [] then []
    else
      var last := removed[|removed| - 1];
      Delivered(removed[..|removed| - 1]) + if last.delivered then [last.frame] else []
  }

  lemma {:induction false} DeliveredInOrder(removed: seq<Removal>)
    ensures Subsequence(Delivered(removed), Frames(removed))
  {
    if removed != [] {
      var before := removed[..|removed| - 1];
      var last := removed[|removed| - 1];
      DeliveredInOrder(before);
      SubsequenceSnoc(Delivered(before), Frames(before), last.frame);
      assert Frames(before) + [last.frame] == Frames(removed);
      assert Delivered(before) + [] == Delivered(before);
    }
  }

  ghost predicate FifoOk(env: Environment, s: State) {
    && |s.contents| <= s.capacity == env.capacity
    && s.accepted == Frames(s.removed) + s.contents
    && Subsequence(s.accepted, s.acked)
  }

  lemma FifoStore(env: Environment, s: State, frame: MediaFrame, wake: nat)
    requires FifoOk(env, s)
    ensures FifoOk(env, Store(s, frame, wake))
  {
    SubsequenceSnoc(s.accepted, s.acked, frame);
    assert Frames(s.removed) + (s.contents + [frame]) == Frames(s.removed) + s.contents + [frame];
  }

  lemma FifoRemove(env: Environment, s: State, k: nat, delivered: bool)
    requires FifoOk(env, s) && k <= |s.contents|
    ensures FifoOk(env, s.(contents := s.contents[k..], removed := s.removed + Removals(s.contents[..k], delivered)))
  {
    assert Frames(s.removed + Removals(s.contents[..k], delivered)) == Frames(s.removed) + s.contents[..k];
    assert s.contents == s.contents[..k] + s.contents[k..];
  }

  lemma FifoStep(env: Environment, s: State, e: Event)
    requires FifoOk(env, s) && Enabled(s, e)
    ensures FifoOk(env, Step(s, e)) && s.accepted <= Step(s, e).accepted
  {
    match e {
      case EnqueueEnter(_, frame, wake) => FifoStore(env, s, frame, wake);
      case EnqueueResume(p, wake) => FifoStore(env, s, s.producers[p].frame, wake);
      case DequeueEnter(_, _) | DequeueResume(_, _) =>
        if s.contents != [] {
          FifoRemove(env, s, 1, true);
          assert Removals(s.contents[..1], true) == [Removal(s.contents[0], true)];
        }
      case CleanIf(policy, _) => FifoRemove(env, s, CleanedBy(policy, s.contents), false);
      case _ =>
    }
  }

  /** Over every interleaving, faithful or not: what put stored is what left the queue, in removal order,
      followed by what is in it; so each stored frame has one fate, delivered frames keep their order,
      and nothing is stored that was not acknowledged. */
  lemma {:induction false} FifoHistoryAlways(env: Environment, es: seq<Event>)
    requires Legal(env, Init(env), es)
    ensures FifoOk(env, Run(env, Init(env), es))
    ensures Subsequence(Delivered(Run(env, Init(env), es).removed), Run(env, Init(env), es).accepted)
    decreases |es|
  {
    var s := Run(env, Init(env), es);
    if es != [] {
      FifoHistoryAlways(env, es[..|es| - 1]);
      FifoStep(env, Run(env, Init(env), es[..|es| - 1]), es[|es| - 1]);
    }
    DeliveredInOrder(s.removed);
    SubsequenceAppend(Delivered(s.removed), Frames(s.removed), s.contents);
  }

  // ----- The video drop policy -----

  /** A delivered delta frame directly follows, in enqueue order, another delivered frame. */
  ghost predicate Decodable(removed: seq<Removal>) {
    forall i | 0 <= i < |removed| && removed[i].delivered && !removed[i].frame.IsKey() ::
      i > 0 && removed[i - 1].delivered
  }

  /** The frame before the next one to leave was not delivered. */
  ghost predicate Gap(s: State) {
    s.removed == [] || !s.removed[|s.removed| - 1].delivered
  }

  ghost predicate ResumesAtKey(s: State) {
    Gap(s) && s.contents != [] ==> s.contents[0].IsKey()
  }

  /** The frame that a step stores, if it stores one. */
  ghost function StoredBy(s: State, e: Event): Option<MediaFrame>
    requires Enabled(s, e)
  {
    if |s.contents| == s.capacity then None
    else match e
      case EnqueueEnter(_, frame, _) => Some(frame)
      case EnqueueResume(p, _) => Some(s.producers[p].frame)
      case _ => None
  }

  /** At the start, and once a clean has emptied the queue, the encoder has to offer a key frame. */
  ghost predicate NeedsKey(s: State) {
    s.contents == [] && Gap(s)
  }

  ghost predicate KeyOffered(s: State, e: Event)
    requires Enabled(s, e)
  {
    NeedsKey(s) && StoredBy(s, e).Some? ==> StoredBy(s, e).value.IsKey()
  }

  ghost predicate VideoCleansOnly(e: Event) {
    e.CleanIf? ==> e.policy.VideoPolicy?
  }

  lemma CleanDropStep(s: State, e: Event)
    requires e.CleanIf? && VideoCleansOnly(e) && Decodable(s.removed) && ResumesAtKey(s)
    ensures Decodable(Step(s, e).removed) && ResumesAtKey(Step(s, e))
  {
    if s.contents != [] {
      CleanVideoStopsAtKey(s.contents);
    }
  }

  lemma DequeueDropStep(s: State, e: Event)
    requires Enabled(s, e) && (e.DequeueEnter? || e.DequeueResume?) && Decodable(s.removed) && ResumesAtKey(s)
    ensures Decodable(Step(s, e).removed) && ResumesAtKey(Step(s, e))
  {
  }

  lemma DropPolicyStep(s: State, e: Event)
    requires Enabled(s, e) && VideoCleansOnly(e) && KeyOffered(s, e)
    requires Decodable(s.removed) && ResumesAtKey(s) && |s.contents| <= s.capacity
    ensures Decodable(Step(s, e).removed) && ResumesAtKey(Step(s, e))
  {
    if e.CleanIf? {
      CleanDropStep(s, e);
    } else if e.DequeueEnter? || e.DequeueResume? {
      DequeueDropStep(s, e);
    }
  }

  /** The video queue's whole run: only `myCleanQueueV` cleans, and a key frame is offered when needed. */
  ghost predicate KeyedRun(env: Environment, es: seq<Event>)
    requires Legal(env, Init(env), es)
    decreases |es|
  {
    es == [] ||
    var before := es[..|es| - 1];
    && KeyedRun(env, before)
    && VideoCleansOnly(es[|es| - 1])
    && KeyOffered(Run(env, Init(env), before), es[|es| - 1])
  }

  lemma {:induction false} KeyedRunStaysDecodable(env: Environment, es: seq<Event>)
    requires Legal(env, Init(env), es) && KeyedRun(env, es)
    ensures Decodable(Run(env, Init(env), es).removed) && ResumesAtKey(Run(env, Init(env), es))
    decreases |es|
  {
    if es != [] {
      var before := es[..|es| - 1];
      KeyedRunStaysDecodable(env, before);
      FifoHistoryAlways(env, before);
      DropPolicyStep(Run(env, Init(env), before), es[|es| - 1]);
    }
  }

  ghost predicate IsDequeue(e: Event) {
    e.DequeueEnter? || e.DequeueResume? || e.DequeueTimeout?
  }

  /** Whatever consumers still take from the queue in state `s`, the stream they see is decodable. */
  ghost predicate DrainsDecodable(env: Environment, s: State) {
    forall ds | (forall d | d in ds :: IsDequeue(d)) && Legal(env, s, ds) :: Decodable(Run(env, s, ds).removed)
  }

  lemma {:induction false} DrainStaysDecodable(env: Environment, s: State, ds: seq<Event>)
    requires FifoOk(env, s) && Decodable(s.removed) && ResumesAtKey(s)
    requires Legal(env, s, ds) && forall d | d in ds :: IsDequeue(d)
    ensures FifoOk(env, Run(env, s, ds)) && Decodable(Run(env, s, ds).removed) && ResumesAtKey(Run(env, s, ds))
    decreases |ds|
  {
    if ds != [] {
      var before := ds[..|ds| - 1];
      assert IsDequeue(ds[|ds| - 1]);
      DrainStaysDecodable(env, s, before);
      FifoStep(env, Run(env, s, before), ds[|ds| - 1]);
      DropPolicyStep(Run(env, s, before), ds[|ds| - 1]);
    }
  }

  lemma Continue(env: Environment, s: State, ds: seq<Event>, d: Event) returns (ds': seq<Event>)
    requires Legal(env, s, ds) && (forall x | x in ds :: IsDequeue(x)) && IsDequeue(d) && Enabled(Run(env, s, ds), d)
    ensures Legal(env, s, ds') && (forall x | x in ds' :: IsDequeue(x)) && Run(env, s, ds') == Step(Run(env, s, ds), d)
  {
    Extend(env, s, ds, d);
    ds' := ds + [d];
  }

  /** Some consumer can take the one frame in the queue, whether it is idle, asleep or woken. */
  lemma OneTaken(env: Environment, s: State) returns (ds: seq<Event>)
    requires s.consumers != [] && |s.contents| == 1
    ensures Legal(env, s, ds) && forall d | d in ds :: IsDequeue(d)
    ensures Run(env, s, ds).removed == s.removed + [Removal(s.contents[0], true)]
  {
    ds := [];
    if s.consumers[0].ConsumerAsleep? {
      ds := Continue(env, s, ds, DequeueTimeout(0));
    }
    ds := Continue(env, s, ds, if s.consumers[0].ConsumerWoken? then DequeueResume(0, 0) else DequeueEnter(0, 0));
  }

  lemma UndecodableAfterGap(removed: seq<Removal>, frame: MediaFrame)
    requires removed == [] || !removed[|removed| - 1].delivered
    requires !frame.IsKey()
    ensures !Decodable(removed + [Removal(frame, true)])
  {
    var after := removed + [Removal(frame, true)];
    assert after[|removed|] == Removal(frame, true);
    assert removed != [] ==> after[|removed| - 1] == removed[|removed| - 1];
  }

  lemma UnkeyedStep(s: State, e: Event)
    requires Enabled(s, e) && !KeyOffered(s, e)
    ensures StoredBy(s, e).Some? && Gap(s) && !StoredBy(s, e).value.IsKey()
    ensures var t := Step(s, e);
            t.contents == [StoredBy(s, e).value] && t.removed == s.removed && |t.consumers| == |s.consumers|
  {
  }

  /** An unkeyed store after a gap: the next frame delivered is a delta frame without its predecessor. */
  lemma UnkeyedStore(env: Environment, s: State, e: Event)
    requires Enabled(s, e) && !KeyOffered(s, e) && s.consumers != []
    ensures !DrainsDecodable(env, Step(s, e))
  {
    UnkeyedStep(s, e);
    UndecodableAfterGap(s.removed, StoredBy(s, e).value);
    var ds := OneTaken(env, Step(s, e));
  }

  lemma {:induction false} ConsumersStay(env: Environment, es: seq<Event>)
    requires Legal(env, Init(env), es)
    ensures |Run(env, Init(env), es).consumers| == env.consumers
    decreases |es|
  {
    if es != [] {
      ConsumersStay(env, es[..|es| - 1]);
    }
  }

  /** At every moment of the run, consumers see a decodable stream if they now empty the queue. */
  ghost predicate AlwaysDrainsDecodable(env: Environment, es: seq<Event>)
    requires Legal(env, Init(env), es)
    decreases |es|
  {
    && DrainsDecodable(env, Run(env, Init(env), es))
    && (es != [] ==> AlwaysDrainsDecodable(env, es[..|es| - 1]))
  }

  /** The condition is exact: a run in which only the video cleaner cleans delivers a decodable stream, whenever it
      is drained, if and only if it offered a key frame each time one was needed. */
  lemma {:induction false} DecodableIff(env: Environment, es: seq<Event>)
    requires env.consumers > 0 && Legal(env, Init(env), es)
    requires forall e | e in es :: VideoCleansOnly(e)
    ensures AlwaysDrainsDecodable(env, es) <==> KeyedRun(env, es)
    decreases |es|
  {
    if KeyedRun(env, es) {
      KeyedRunStaysDecodable(env, es);
      FifoHistoryAlways(env, es);
      forall ds | (forall d | d in ds :: IsDequeue(d)) && Legal(env, Run(env, Init(env), es), ds)
        ensures Decodable(Run(env, Run(env, Init(env), es), ds).removed)
      {
        DrainStaysDecodable(env, Run(env, Init(env), es), ds);
      }
    }
    if es != [] {
      var (before, e) := (es[..|es| - 1], es[|es| - 1]);
      DecodableIff(env, before);
      ConsumersStay(env, before);
      if !KeyOffered(Run(env, Init(env), before), e) {
        UnkeyedStore(env, Run(env, Init(env), before), e);
      }
    }
  }

  const DELTA := MediaFrame(NoBuffer, 0, 0, 0, 0)

  lemma EmptyingClean(s: State)
    requires s.contents == Copies(1) && s.removed == []
    requires forall p | 0 <= p < |s.producers| :: s.producers[p].ProducerIdle?
    ensures Step(s, CleanIf(VideoPolicy, 0)) == s.(contents := [], removed := [Removal(SAMPLE, false)])
  {
    CleanVideoStopsAtKey(s.contents);
  }

  /** With a first key frame and the program's own cleaner the condition can still fail: the clean empties the queue,
      and the encoder goes on with a delta frame. */
  lemma {:induction false} UndecodableRun(env: Environment) returns (es: seq<Event>)
    requires env.capacity > 0 && env.producers > 0 && env.consumers > 0
    ensures Legal(env, Init(env), es) && forall e | e in es :: VideoCleansOnly(e)
    ensures var s := Run(env, Init(env), es);
            s.accepted == [SAMPLE, DELTA] && SAMPLE.IsKey() && !Decodable(s.removed)
  {
    es := FillEvents(1);
    FillQueue(env, 1);
    EmptyingClean(Filled(env, 1));
    es := Then(env, es, CleanIf(VideoPolicy, 0));
    es := Then(env, es, EnqueueEnter(0, DELTA, 0));
    es := Then(env, es, DequeueEnter(0, 0));
    UndecodableAfterGap([Removal(SAMPLE, false)], DELTA);
  }

  /** No clean step of the run takes the last frame. */
  ghost predicate NeverEmptied(env: Environment, es: seq<Event>)
    requires Legal(env, Init(env), es)
    decreases |es|
  {
    es == [] ||
    var s := Run(env, Init(env), es[..|es| - 1]);
    && NeverEmptied(env, es[..|es| - 1])
    && VideoCleansOnly(es[|es| - 1])
    && (es[|es| - 1].CleanIf? && s.contents != [] ==> Step(s, es[|es| - 1]).contents != [])
  }

  /** Nothing but a clean leaves a gap before an empty queue. */
  ghost predicate NoGapWhenEmpty(s: State) {
    s.removed != [] && s.contents == [] ==> !Gap(s)
  }

  lemma NoGapStep(s: State, e: Event)
    requires Enabled(s, e) && NoGapWhenEmpty(s)
    requires e.CleanIf? && s.contents != [] ==> Step(s, e).contents != []
    ensures NoGapWhenEmpty(Step(s, e))
  {
    if e.CleanIf? && s.contents == [] {
      assert Step(s, e).removed == s.removed;
    }
  }

  lemma KeyOfferedFirst(env: Environment, s: State, e: Event)
    requires Enabled(s, e) && FifoOk(env, s) && NoGapWhenEmpty(s)
    requires Step(s, e).accepted != [] ==> Step(s, e).accepted[0].IsKey()
    ensures KeyOffered(s, e)
  {
    if NeedsKey(s) && StoredBy(s, e).Some? {
      assert s.accepted == [];
      assert Step(s, e).accepted == [StoredBy(s, e).value];
    }
  }

  /** Without an emptying clean, a first key frame is enough to offer every key frame that is needed. */
  lemma {:induction false} NeverEmptiedIsKeyed(env: Environment, es: seq<Event>)
    requires Legal(env, Init(env), es) && NeverEmptied(env, es)
    requires var s := Run(env, Init(env), es); s.accepted != [] ==> s.accepted[0].IsKey()
    ensures KeyedRun(env, es) && NoGapWhenEmpty(Run(env, Init(env), es))
    decreases |es|
  {
    if es != [] {
      var before := es[..|es| - 1];
      var s := Run(env, Init(env), before);
      FifoHistoryAlways(env, before);
      FifoStep(env, s, es[|es| - 1]);
      NeverEmptiedIsKeyed(env, before);
      NoGapStep(s, es[|es| - 1]);
      KeyOfferedFirst(env, s, es[|es| - 1]);
    }
  }

  /** With one producer, true wakeups and no emptying clean, over every interleaving: if the encoder's first
      frame is a key frame, a delta frame reaches the muxer only when the frame encoded right before it did. */
  lemma VideoStaysDecodable(env: Environment, es: seq<Event>)
    requires Faithful(env) && Legal(env, Init(env), es) && NeverEmptied(env, es)
    requires var s := Run(env, Init(env), es); s.acked != [] ==> s.acked[0].IsKey()
    ensures var s := Run(env, Init(env), es);
            && |s.removed| <= |s.acked|
            && forall i | 0 <= i < |s.removed| && s.removed[i].delivered && !s.acked[i].IsKey() ::
                 i > 0 && s.removed[i - 1].delivered
  {
    var s := Run(env, Init(env), es);
    SlotKeptAlways(env, es);
    FifoHistoryAlways(env, es);
    NeverEmptiedIsKeyed(env, es);
    KeyedRunStaysDecodable(env, es);
    forall i | 0 <= i < |s.removed|
      ensures s.acked[i] == s.removed[i].frame
    {
      assert s.accepted[i] == Frames(s.removed)[i];
    }
  }
}
