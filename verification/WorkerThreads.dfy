// The worker of utils/mediaThread.cpp: its status machine, and its loop of dequeue, deal, enqueue with retry,
// interleaved with a controller that starts, pauses and stops it.
module WorkerThreads {
  import opened MediaFrames

  datatype Status = StatusNull | StatusRunning | StatusPause | StatusStop

  function Rank(st: Status): nat {
    match st
    case StatusNull => 0
    case StatusRunning => 1
    case StatusPause => 2
    case StatusStop => 3
  }

  /** The status after each call, which the caller makes on its own thread. */
  function Started(st: Status): Status {
    if st == StatusNull then StatusRunning else st
  }

  function Paused(st: Status): Status {
    if st == StatusRunning then StatusPause else st
  }

  function Stopped(st: Status): Status {
    if st == StatusPause || st == StatusRunning then StatusStop else st
  }

  /** The controlling side of `mediaThread`; `created` counts the threads created, `joined` the calls of
      pthread_join. */
  class MediaThread {
    var mStatus: Status
    var created: nat
    var joined: nat

    ghost predicate Valid()
      reads this
    {
      && created <= (if mStatus == StatusNull then 0 else 1)
      && joined == (if mStatus == StatusStop then 1 else 0)
    }

    constructor ()
      ensures Valid() && mStatus == StatusNull
    {
      mStatus, created, joined := StatusNull, 0, 0;
    }

    /** `createResult` is what pthread_create will return; the status is Running even if that is an error. */
    method Start(createResult: int) returns (ret: int)
      requires Valid()
      modifies this
      ensures Valid() && mStatus == Started(old(mStatus)) && Rank(mStatus) >= Rank(old(mStatus))
      ensures old(mStatus) == StatusNull ==> mStatus == StatusRunning && ret == createResult
      ensures old(mStatus) != StatusNull ==> mStatus == old(mStatus) && ret == -1
      ensures created == old(created) + (if old(mStatus) == StatusNull && createResult == 0 then 1 else 0)
      ensures joined == old(joined)
    {
      if mStatus == StatusNull {
        mStatus := StatusRunning;
        if createResult == 0 {
          created := created + 1;
        }
        return createResult;
      }
      return -1;
    }

    method Pause() returns (ret: int)
      requires Valid()
      modifies this
      ensures Valid() && mStatus == Paused(old(mStatus)) && Rank(mStatus) >= Rank(old(mStatus))
      ensures old(mStatus) == StatusRunning ==> mStatus == StatusPause
      ensures old(mStatus) != StatusRunning ==> mStatus == old(mStatus)
      ensures ret == 0 && created == old(created) && joined == old(joined)
    {
      if mStatus == StatusRunning {
        mStatus := StatusPause;
      }
      return 0;
    }

    /** The join comes back when the thread has left `run`; see `StopIsPrompt`. */
    method Stop() returns (ret: int)
      requires Valid()
      modifies this
      ensures Valid() && mStatus == Stopped(old(mStatus)) && Rank(mStatus) >= Rank(old(mStatus))
      ensures if old(mStatus) == StatusRunning || old(mStatus) == StatusPause
              then mStatus == StatusStop && joined == old(joined) + 1
              else mStatus == old(mStatus) && joined == old(joined)
      ensures ret == 0 && created == old(created)
    {
      if mStatus == StatusPause || mStatus == StatusRunning {
        mStatus := StatusStop;
        joined := joined + 1;
      }
      return 0;
    }
  }

  // ----- The thread -----

  /** Where the worker is. A frame in its hand is named by a number. */
  datatype Pc =
    | NotCreated
    | LoopHead                   // about to test mStatus != Stop
    | PauseTest                  // about to test mStatus == Pause
    | Dequeuing
    | DequeueAsleep
    | Dealing
    | Enqueuing(frame: nat)
    | EnqueueAsleep(frame: nat)
    | TimedOut(frame: nat)       // enqueue returned -ETIMEDOUT; about to test mStatus != Stop
    | Left                       // run has returned

  /** What became of a frame that `deal` returned. */
  datatype Fate = Stored(frame: nat) | Refused(frame: nat) | Released(frame: nat)

  /** The controller is between calls, or inside pthread_join. */
  datatype Controller = Free | Joining

  datatype State = State(
    status: Status,
    controller: Controller,
    created: nat,
    joined: nat,
    pc: Pc,
    dealt: seq<nat>,          // the frames that deal returned, in order
    fates: seq<Fate>,         // what became of them, in order
    dequeuesSinceStop: nat,   // calls begun after the status became Stop
    enqueuesSinceStop: nat)

  datatype Event =
    | CallStart(creates: bool)         // whether pthread_create succeeds
    | CallPause
    | CallStop
    | JoinReturns
    | Head
    | Test
    | Dequeue(got: Option<bool>)       // None: the queue is empty, sleep; Some(found)
    | DequeueReturns(found: bool)      // after the wait: a frame, or NULL
    | Deal(out: Option<nat>)           // deal consumed the input frame; its result
    | Enqueue(full: bool)
    | EnqueueReturns(refused: bool)    // after a wait that did not time out
    | EnqueueTimesOut
    | Retest

  function Init(): State {
    State(StatusNull, Free, 0, 0, NotCreated, [], [], 0, 0)
  }

  predicate WorkerEvent(e: Event) {
    !e.CallStart? && !e.CallPause? && !e.CallStop? && !e.JoinReturns?
  }

  predicate Enabled(s: State, e: Event) {
    match e
    case CallStart(_) | CallPause | CallStop => s.controller == Free
    case JoinReturns => s.controller == Joining && (s.pc == Left || s.pc == NotCreated)
    case Head => s.pc == LoopHead
    case Test => s.pc == PauseTest
    case Dequeue(_) => s.pc == Dequeuing
    case DequeueReturns(_) => s.pc == DequeueAsleep
    case Deal(_) => s.pc == Dealing
    case Enqueue(_) => s.pc.Enqueuing?
    case EnqueueReturns(_) => s.pc.EnqueueAsleep?
    case EnqueueTimesOut => s.pc.EnqueueAsleep?
    case Retest => s.pc.TimedOut?
  }

  function SinceStop(s: State): nat {
    if s.status == StatusStop then 1 else 0
  }

  function Step(s: State, e: Event): State
    requires Enabled(s, e)
  {
    match e
    case CallStart(creates) =>
      if s.status != StatusNull then s
      else if creates then s.(status := Started(s.status), created := s.created + 1, pc := LoopHead)
      else s.(status := Started(s.status))
    case CallPause => s.(status := Paused(s.status))
    case CallStop => if Stopped(s.status) != s.status then s.(status := StatusStop, controller := Joining) else s
    case JoinReturns => s.(controller := Free, joined := s.joined + 1)
    case Head => s.(pc := if s.status == StatusStop then Left else PauseTest)
    case Test => s.(pc := if s.status == StatusPause then LoopHead else Dequeuing)
    case Dequeue(got) =>
      s.(pc := match got case None => DequeueAsleep case Some(found) => if found then Dealing else LoopHead,
         dequeuesSinceStop := s.dequeuesSinceStop + SinceStop(s))
    case DequeueReturns(found) => s.(pc := if found then Dealing else LoopHead)
    case Deal(out) =>
      match out {
        case None => s.(pc := LoopHead)
        case Some(f) => s.(pc := Enqueuing(f), dealt := s.dealt + [f])
      }
    case Enqueue(full) =>
      var t := s.(enqueuesSinceStop := s.enqueuesSinceStop + SinceStop(s));
      if full then t.(pc := EnqueueAsleep(s.pc.frame)) else t.(pc := LoopHead, fates := s.fates + [Stored(s.pc.frame)])
    case EnqueueReturns(refused) =>
      s.(pc := LoopHead, fates := s.fates + [if refused then Refused(s.pc.frame) else Stored(s.pc.frame)])
    case EnqueueTimesOut => s.(pc := TimedOut(s.pc.frame))
    case Retest =>
      if s.status != StatusStop then s.(pc := Enqueuing(s.pc.frame))
      else s.(pc := LoopHead, fates := s.fates + [Released(s.pc.frame)])
  }

  predicate Legal(s: State, es: seq<Event>)
    decreases |es|, 0
  {
    es == [] || (Legal(s, es[..|es| - 1]) && Enabled(Run(s, es[..|es| - 1]), es[|es| - 1]))
  }

  function Run(s: State, es: seq<Event>): State
    requires Legal(s, es)
    decreases |es|, 1
  {
    if es == [] then s else Step(Run(s, es[..|es| - 1]), es[|es| - 1])
  }

  ghost function InHand(pc: Pc): seq<nat> {
    if pc.Enqueuing? || pc.EnqueueAsleep? || pc.TimedOut? then [pc.frame] else []
  }

  ghost function FateFrames(fates: seq<Fate>): (q: seq<nat>)
    ensures |q| == |fates|
  {
    seq(|fates|, i requires 0 <= i < |fates| => fates[i].frame)
  }

  /** How many own steps the worker still makes once the status is Stop. */
  ghost function StepsLeft(pc: Pc): nat {
    match pc
    case NotCreated => 0
    case Left => 0
    case LoopHead => 1
    case TimedOut(_) => 2
    case EnqueueAsleep(_) => 3
    case Enqueuing(_) => 4
    case Dealing => 5
    case DequeueAsleep => 6
    case Dequeuing => 7
    case PauseTest => 8
  }

  /** What a stopping worker may still begin: `dequeues` and `enqueues` bound the calls begun since Stop. */
  ghost predicate StopOk(s: State) {
    && (s.status != StatusStop ==> s.dequeuesSinceStop == 0 && s.enqueuesSinceStop == 0)
    && s.dequeuesSinceStop <= (if s.pc.PauseTest? || s.pc.Dequeuing? then 0 else 1)
    && s.enqueuesSinceStop
       <= (if s.pc.PauseTest? || s.pc.Dequeuing? || s.pc.DequeueAsleep? || s.pc.Dealing? || s.pc.Enqueuing?
           then 0 else 1)
  }

  ghost predicate Inv(s: State) {
    && s.dealt == FateFrames(s.fates) + InHand(s.pc)
    && s.created == (if s.pc == NotCreated then 0 else 1)
    && (s.status == StatusNull ==> s.pc == NotCreated)
    && s.joined <= 1
    && (s.joined == 1 ==> s.status == StatusStop && (s.pc == Left || s.pc == NotCreated) && s.controller == Free)
    && (s.controller == Joining ==> s.status == StatusStop && s.joined == 0)
    && (s.status == StatusStop ==> s.controller == Joining || s.joined == 1)
    && (s.pc == Left ==> s.status == StatusStop)
    && (forall i | 0 <= i < |s.fates| && s.fates[i].Released? :: s.status == StatusStop)
    && StopOk(s)
  }

  lemma {:induction false} StepKeeps(s: State, e: Event)
    requires Inv(s) && Enabled(s, e)
    ensures Inv(Step(s, e)) && Rank(Step(s, e).status) >= Rank(s.status)
    ensures s.status == StatusStop ==>
              StepsLeft(Step(s, e).pc) + (if WorkerEvent(e) then 1 else 0) <= StepsLeft(s.pc)
  {
    var t := Step(s, e);
    if |t.fates| > |s.fates| {
      assert FateFrames(t.fates) == FateFrames(s.fates) + [t.fates[|s.fates|].frame];
    }
  }

  /** Over every interleaving of the worker with start, pause and stop calls: the status only moves forward, the
      thread is created at most once and joined at most once, only after it left `run`; once stopping it begins at
      most one more dequeue and one more enqueue; and every frame that `deal` returned has met exactly one fate,
      in order, unless it is still in the worker's hand. The worker itself gives a frame up only when stopping. */
  lemma {:induction false} WorkerAlways(es: seq<Event>)
    requires Legal(Init(), es)
    ensures var s := Run(Init(), es);
            && Inv(s)
            && s.created <= 1 && s.joined <= 1
            && (s.joined == 1 && s.created == 1 ==> s.pc == Left)
            && s.dequeuesSinceStop <= 1 && s.enqueuesSinceStop <= 1
            && (s.pc == Left ==> s.dealt == FateFrames(s.fates))
            && (forall i | 0 <= i < |s.fates| && s.fates[i].Released? :: s.status == StatusStop)
    decreases |es|
  {
    if es != [] {
      WorkerAlways(es[..|es| - 1]);
      StepKeeps(Run(Init(), es[..|es| - 1]), es[|es| - 1]);
    }
  }

  ghost predicate Creates(e: Event) {
    e.CallStart? ==> e.creates
  }

  /** Whenever the controller is inside pthread_join, there is a thread to join. `creates`: pthread_create succeeds. */
  ghost predicate JoinsItsThread(creates: bool) {
    forall es | Legal(Init(), es) && (creates ==> forall e | e in es :: Creates(e)) ::
      Run(Init(), es).controller == Joining ==> Run(Init(), es).created == 1
  }

  lemma {:induction false} CreatedWhenStarted(es: seq<Event>)
    requires Legal(Init(), es) && forall e | e in es :: Creates(e)
    ensures Run(Init(), es).status != StatusNull ==> Run(Init(), es).created == 1
    decreases |es|
  {
    if es != [] {
      assert Creates(es[|es| - 1]);
      WorkerAlways(es[..|es| - 1]);
      CreatedWhenStarted(es[..|es| - 1]);
    }
  }

  lemma Then(es: seq<Event>, e: Event) returns (es': seq<Event>)
    requires Legal(Init(), es) && Enabled(Run(Init(), es), e)
    ensures Legal(Init(), es') && Run(Init(), es') == Step(Run(Init(), es), e)
  {
    es' := es + [e];
    assert es'[..|es|] == es;
  }

  /** A start whose thread could not be created reports the error, but leaves the status Running, so that a stop joins
      a thread that does not exist. That is the only way: */
  lemma JoinsItsThreadIff(creates: bool)
    ensures JoinsItsThread(creates) <==> creates
  {
    if creates {
      forall es | Legal(Init(), es) && forall e | e in es :: Creates(e)
        ensures Run(Init(), es).controller == Joining ==> Run(Init(), es).created == 1
      {
        WorkerAlways(es);
        CreatedWhenStarted(es);
      }
    } else {
      var started := Then([], CallStart(false));
      var stopped := Then(started, CallStop);
    }
  }

  ghost function WorkerSteps(es: seq<Event>): nat {
    if es == [] then 0
    else WorkerSteps(es[..|es| - 1]) + if WorkerEvent(es[|es| - 1]) then 1 else 0
  }

  /** A worker whose status is Stop makes at most eight more steps of its own, whatever else happens;
      after the last it has left `run`. */
  lemma {:induction false} StopIsPrompt(s: State, es: seq<Event>)
    requires Inv(s) && s.status == StatusStop && Legal(s, es)
    ensures Inv(Run(s, es)) && Run(s, es).status == StatusStop
    ensures WorkerSteps(es) + StepsLeft(Run(s, es).pc) <= StepsLeft(s.pc) <= 8
    ensures Run(s, es).pc == Left || Run(s, es).created == 0 || exists e :: WorkerEvent(e) && Enabled(Run(s, es), e)
    decreases |es|
  {
    if es != [] {
      StopIsPrompt(s, es[..|es| - 1]);
      StepKeeps(Run(s, es[..|es| - 1]), es[|es| - 1]);
    }
    if Run(s, es).pc != Left && Run(s, es).pc != NotCreated {
      CanAct(Run(s, es));
    }
  }

  lemma CanAct(s: State)
    requires s.pc != NotCreated && s.pc != Left
    ensures exists e :: WorkerEvent(e) && Enabled(s, e)
  {
    match s.pc {
      case LoopHead => assert WorkerEvent(Head) && Enabled(s, Head);
      case PauseTest => assert WorkerEvent(Test) && Enabled(s, Test);
      case Dequeuing => assert WorkerEvent(Dequeue(None)) && Enabled(s, Dequeue(None));
      case DequeueAsleep => assert WorkerEvent(DequeueReturns(false)) && Enabled(s, DequeueReturns(false));
      case Dealing => assert WorkerEvent(Deal(None)) && Enabled(s, Deal(None));
      case Enqueuing(_) => assert WorkerEvent(Enqueue(true)) && Enabled(s, Enqueue(true));
      case EnqueueAsleep(_) => assert WorkerEvent(EnqueueTimesOut) && Enabled(s, EnqueueTimesOut);
      case TimedOut(_) => assert WorkerEvent(Retest) && Enabled(s, Retest);
    }
  }

  // ----- What a worker does with its frames, and when -----

  /** A frame that timed out is offered again, as long as the worker is not stopping. */
  lemma TimedOutKept(s: State)
    requires s.pc.TimedOut?
    ensures s.status != StatusStop ==> Step(s, Retest) == s.(pc := Enqueuing(s.pc.frame))
    ensures s.status == StatusStop ==>
              Step(s, Retest).fates == s.fates + [Released(s.pc.frame)] && Step(s, Retest).pc == LoopHead
  {
  }

  /** How often the queue took a frame, refused one after a wait, or let one time out for good. */
  ghost function Offers(es: seq<Event>, stored: bool): nat {
    if es == [] then 0
    else
      var e := es[|es| - 1];
      Offers(es[..|es| - 1], stored)
      + if (e.Enqueue? && !e.full && stored) || (e.EnqueueReturns? && e.refused != stored) then 1 else 0
  }

  ghost function CountFates(fates: seq<Fate>, stored: bool): nat {
    if fates == [] then 0
    else
      var x := fates[|fates| - 1];
      CountFates(fates[..|fates| - 1], stored) + if (stored && x.Stored?) || (!stored && x.Refused?) then 1 else 0
  }

  lemma FateSnoc(fates: seq<Fate>, x: Fate, stored: bool)
    ensures CountFates(fates + [x], stored)
            == CountFates(fates, stored) + if (stored && x.Stored?) || (!stored && x.Refused?) then 1 else 0
  {
    assert (fates + [x])[..|fates|] == fates;
  }

  /** The fates are what the output queue answered: stored as often as it took a frame, refused as often as it refused
      one without saying so. */
  lemma {:induction false} FatesAreAnswers(es: seq<Event>, stored: bool)
    requires Legal(Init(), es)
    ensures CountFates(Run(Init(), es).fates, stored) == Offers(es, stored)
    decreases |es|
  {
    if es != [] {
      var (s, e) := (Run(Init(), es[..|es| - 1]), es[|es| - 1]);
      FatesAreAnswers(es[..|es| - 1], stored);
      if |Step(s, e).fates| > |s.fates| {
        FateSnoc(s.fates, Step(s, e).fates[|s.fates|], stored);
      }
    }
  }

  ghost function Dequeues(es: seq<Event>): nat {
    if es == [] then 0 else Dequeues(es[..|es| - 1]) + if es[|es| - 1].Dequeue? then 1 else 0
  }

  /** The worker is past the test of Pause, and about to call dequeue. */
  ghost function AboutToDequeue(s: State): nat {
    if s.pc == Dequeuing then 1 else 0
  }

  /** While it is paused, a worker begins no dequeue, but for the one it may have been about to begin. */
  lemma {:induction false} PausedRests(s: State, es: seq<Event>)
    requires s.status == StatusPause && Legal(s, es) && forall e | e in es :: !e.CallStop?
    ensures Run(s, es).status == StatusPause
    ensures Dequeues(es) + AboutToDequeue(Run(s, es)) <= AboutToDequeue(s)
    decreases |es|
  {
    if es != [] {
      assert !es[|es| - 1].CallStop?;
      PausedRests(s, es[..|es| - 1]);
    }
  }

  /** One more own step of the worker. */
  lemma Work(s: State, es: seq<Event>, e: Event) returns (es': seq<Event>)
    requires Legal(s, es) && Enabled(Run(s, es), e) && WorkerEvent(e) && (forall x | x in es :: WorkerEvent(x))
    ensures Legal(s, es') && Run(s, es') == Step(Run(s, es), e) && forall x | x in es' :: WorkerEvent(x)
  {
    es' := es + [e];
    assert es'[..|es|] == es;
  }

  /** A running worker gets on: from any point, by its own steps alone, it stores the frame in its hand when there is
      room, and comes to its next dequeue. */
  lemma RunningWorks(s: State) returns (es: seq<Event>)
    requires Inv(s) && s.status == StatusRunning && s.pc != NotCreated
    ensures Legal(s, es) && forall e | e in es :: WorkerEvent(e)
    ensures var t := Run(s, es);
            && t.status == StatusRunning && t.pc == Dequeuing && t.dealt == s.dealt
            && t.fates == s.fates + if InHand(s.pc) == [] then [] else [Stored(InHand(s.pc)[0])]
  {
    es := [];
    match s.pc {
      case DequeueAsleep => es := Work(s, es, DequeueReturns(false));
      case Dealing => es := Work(s, es, Deal(None));
      case Enqueuing(_) => es := Work(s, es, Enqueue(false));
      case EnqueueAsleep(_) => es := Work(s, es, EnqueueReturns(false));
      case TimedOut(_) =>
        es := Work(s, es, Retest);
        es := Work(s, es, Enqueue(false));
      case _ =>
    }
    if Run(s, es).pc == LoopHead {
      es := Work(s, es, Head);
    }
    if Run(s, es).pc == PauseTest {
      es := Work(s, es, Test);
    }
  }

  /** What the controller's calls do to the status: the same as those of the class. */
  lemma CallsAct(s: State)
    requires s.controller == Free
    ensures Enabled(s, CallPause) && Enabled(s, CallStop) && forall creates :: Enabled(s, CallStart(creates))
    ensures Step(s, CallPause) == s.(status := if s.status == StatusRunning then StatusPause else s.status)
    ensures s.status == StatusRunning || s.status == StatusPause ==>
              Step(s, CallStop) == s.(status := StatusStop, controller := Joining)
    ensures s.status == StatusNull || s.status == StatusStop ==> Step(s, CallStop) == s
    ensures forall creates ::
              Step(s, CallStart(creates)).status == if s.status == StatusNull then StatusRunning else s.status
    ensures s.status == StatusNull ==> Step(s, CallStart(true)).pc == LoopHead && Step(s, CallStart(false)).pc == s.pc
  {
  }

  /** On an empty queue the worker sleeps, and goes back to its loop when it gets nothing. */
  lemma NothingFound(s: State)
    requires s.pc == Dequeuing
    ensures Enabled(s, Dequeue(None)) && Step(s, Dequeue(None)).pc == DequeueAsleep
    ensures Step(s, Dequeue(Some(false))).pc == LoopHead
    ensures Step(Step(s, Dequeue(None)), DequeueReturns(false)).pc == LoopHead
    ensures Step(s, Dequeue(None)).fates == s.fates && Step(s, Dequeue(Some(false))).fates == s.fates
  {
  }

  /** A frame that is found is dealt with, and what `deal` returns is offered to the output queue. */
  lemma FoundIsOffered(s: State, f: nat)
    requires s.pc == Dequeuing || s.pc == DequeueAsleep
    ensures var e := if s.pc == Dequeuing then Dequeue(Some(true)) else DequeueReturns(true);
            && Enabled(s, e) && Enabled(Step(s, e), Deal(Some(f)))
            && Step(Step(s, e), Deal(Some(f))).pc == Enqueuing(f)
            && Step(Step(s, e), Deal(Some(f))).dealt == s.dealt + [f]
  {
  }
}
