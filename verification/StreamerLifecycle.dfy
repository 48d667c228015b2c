// prepare, stop and release of MediaStreamer.c against the prepare thread and the mux thread they start.
module StreamerLifecycle {
  import opened MediaFrames

  datatype Status = StatusInit | StatusPreparing | StatusPrepared | StatusStreaming | StatusStopped | StatusError

  /** The calling thread: between calls, or at a point inside `mediaStreamer_stop` or `mediaStreamer_release`. */
  datatype CallerPc =
    | Idle
    | StopSecondTest        // status > init held; about to test status < stoped
    | JoiningPrepare
    | EndingMux             // about to enter muxer_end
    | JoiningMux
    | ClosingMux            // about to enter muxer_close
    | MarkingStopped
    | Releasing             // in mediaStreamer_release, about to test pDelcnt
    | Gone                  // the streamer is freed

  /** The prepare thread, at each place where it touches something shared. */
  datatype PreparePc =
    | NotCreated
    | TestingStatus
    | Opening
    | Registering           // listener, callbacks, statistician
    | Preparing             // koala_muxer_init_open
    | MarkingPrepared
    | NotifyingOk
    | MarkingStreaming
    | StartingMux
    | MarkingError
    | NotifyingError
    | Done

  datatype State = State(
    status: Status,
    caller: CallerPc,
    prepare: PreparePc,
    prepareJoined: nat,
    handle: bool,           // pDelcnt is not NULL
    closed: nat,            // calls of koala_muxer_close
    muxId: bool,            // mux_id is not 0
    muxRunning: bool,
    muxCreated: nat,
    muxJoined: nat,
    stopSeen: bool)         // a stop call was made since prepare was

  datatype Event =
    | CallPrepare(created: bool) // `created`: whether pthread_create succeeds
    | CallStop
    | CallRelease
    | CallerStep            // the next step of the call in progress
    | PrepareStep(ok: bool) // `ok`: whether an operation that may fail succeeds
    | MuxExits

  /** What callers and the system keep to. */
  datatype Discipline = Discipline(
    stopsFirst: bool,       // callers stop a streamer that they have prepared before they release it
    creates: bool)          // pthread_create does not fail

  function Init(): State {
    State(StatusInit, Idle, NotCreated, 0, false, 0, false, false, 0, 0, false)
  }

  /** The prepare thread still has the koala handle to work on. */
  predicate MayUseHandle(pc: PreparePc) {
    || pc.Registering? || pc.Preparing? || pc.MarkingPrepared? || pc.NotifyingOk? || pc.MarkingStreaming?
    || pc.StartingMux?
  }

  predicate Enabled(d: Discipline, s: State, e: Event) {
    match e
    case CallPrepare(created) => s.caller.Idle? && (d.creates ==> created)
    case CallStop => s.caller.Idle?
    case CallRelease => s.caller.Idle? && (d.stopsFirst ==> s.stopSeen || s.prepare.NotCreated?)
    case CallerStep =>
      match s.caller {
        case Idle => false
        case Gone => false
        case JoiningPrepare => s.prepare.Done? || s.prepare.NotCreated?
        case JoiningMux => s.muxId ==> !s.muxRunning
        case _ => true
      }
    case PrepareStep(ok) =>
      !s.prepare.NotCreated? && !s.prepare.Done? && (d.creates && s.prepare.StartingMux? ==> ok)
    case MuxExits => s.muxRunning
  }

  function CallerNext(s: State): State {
    match s.caller
    case StopSecondTest =>
      s.(caller := if s.status == StatusStopped || s.status == StatusError then Idle else JoiningPrepare)
    case JoiningPrepare => s.(caller := EndingMux, prepareJoined := s.prepareJoined + 1)
    case EndingMux => s.(caller := if s.handle then JoiningMux else ClosingMux)
    case JoiningMux =>
      s.(caller := ClosingMux, muxJoined := s.muxJoined + if s.muxId then 1 else 0, muxId := false)
    case ClosingMux => Close(s).(caller := MarkingStopped)
    case MarkingStopped => s.(status := StatusStopped, caller := Idle)
    case Releasing => Close(s).(caller := Gone)
    case _ => s
  }

  /** `muxer_close`, which clears `pDelcnt`. */
  function Close(s: State): State {
    if s.handle then s.(closed := s.closed + 1, handle := false) else s
  }

  function PrepareNext(s: State, ok: bool): State {
    match s.prepare
    case TestingStatus => s.(prepare := if s.status == StatusStreaming then Done else Opening)
    case Opening => if ok then s.(handle := true, prepare := Registering) else s.(prepare := NotifyingError)
    case Registering => s.(prepare := Preparing)
    case Preparing => s.(prepare := if ok then MarkingPrepared else MarkingError)
    case MarkingPrepared => s.(status := StatusPrepared, prepare := NotifyingOk)
    case NotifyingOk => s.(prepare := MarkingStreaming)
    case MarkingStreaming => s.(status := StatusStreaming, prepare := StartingMux)
    case StartingMux =>
      if ok && s.handle && !s.muxId
      then s.(muxId := true, muxRunning := true, muxCreated := s.muxCreated + 1, prepare := Done)
      else s.(prepare := Done)
    case MarkingError => s.(status := StatusError, prepare := NotifyingError)
    case NotifyingError => s.(prepare := Done)
    case _ => s
  }

  function Step(d: Discipline, s: State, e: Event): State
    requires Enabled(d, s, e)
  {
    match e
    case CallPrepare(created) =>
      if s.status != StatusInit then s
      else s.(status := StatusPreparing, prepare := if created then TestingStatus else NotCreated)
    case CallStop =>
      if s.status == StatusInit then s
      else s.(caller := StopSecondTest, stopSeen := true)
    case CallRelease => s.(caller := Releasing)
    case CallerStep => CallerNext(s)
    case PrepareStep(ok) => PrepareNext(s, ok)
    case MuxExits => s.(muxRunning := false)
  }

  predicate Legal(d: Discipline, es: seq<Event>)
    decreases |es|, 0
  {
    es == [] || (Legal(d, es[..|es| - 1]) && Enabled(d, Run(d, es[..|es| - 1]), es[|es| - 1]))
  }

  function Run(d: Discipline, es: seq<Event>): State
    requires Legal(d, es)
    decreases |es|, 1
  {
    if es == [] then Init() else Step(d, Run(d, es[..|es| - 1]), es[|es| - 1])
  }

  /** The koala handle is closed at most once, and not before both threads are through with it;
      no second mux thread is ever made, and no thread is joined twice. */
  ghost predicate Safe(s: State) {
    && s.closed <= 1
    && (s.closed == 1 ==> !s.muxRunning && !MayUseHandle(s.prepare))
    && s.muxCreated <= 1 && s.muxJoined <= s.muxCreated
    && s.prepareJoined <= 1
  }

  /** The stop call in progress has joined the prepare thread. */
  predicate PastJoin(pc: CallerPc) {
    pc.EndingMux? || pc.JoiningMux? || pc.ClosingMux? || pc.MarkingStopped?
  }

  /** The status follows the prepare thread until a stop call takes over. */
  ghost predicate StatusOk(s: State) {
    match s.prepare
    case NotCreated => s.status == StatusInit || s.status == StatusPreparing || s.status == StatusStopped
    case TestingStatus | Opening | Registering | Preparing | MarkingPrepared | MarkingError =>
      s.status == StatusPreparing
    case NotifyingOk | MarkingStreaming => s.status == StatusPrepared
    case StartingMux => s.status == StatusStreaming
    case NotifyingError => s.status == StatusPreparing || s.status == StatusError
    case Done => s.status != StatusInit && s.status != StatusPrepared
  }

  ghost predicate HandleOk(s: State) {
    && s.closed <= 1
    && (MayUseHandle(s.prepare) ==> s.handle)
    && (s.handle ==> s.closed == 0 && s.prepare != NotCreated && s.prepare != TestingStatus && s.prepare != Opening)
    && (s.closed == 1 ==> s.prepareJoined == 1 || s.status == StatusError)
  }

  ghost predicate MuxOk(s: State) {
    && s.muxCreated <= 1 && s.muxJoined <= s.muxCreated
    && (s.muxId <==> s.muxCreated == 1 && s.muxJoined == 0)
    && (s.muxRunning ==> s.muxId && s.handle)
    && (s.muxCreated == 1 ==> s.prepare == Done && (s.status == StatusStreaming || s.status == StatusStopped))
    && (s.status == StatusStopped ==> !s.muxRunning)
  }

  ghost predicate CallerOk(s: State) {
    && (s.prepareJoined == 0 || (s.prepareJoined == 1 && (s.prepare == Done || s.prepare == NotCreated)))
    && (s.prepareJoined == 1 ==> s.status != StatusInit)
    && (s.status == StatusStopped ==> s.prepareJoined == 1)
    && (PastJoin(s.caller) <==> s.prepareJoined == 1 && s.status != StatusStopped)
    && match s.caller
       case StopSecondTest | JoiningPrepare =>
         s.status != StatusInit && (s.caller.JoiningPrepare? ==> s.status != StatusStopped)
       case JoiningMux => s.handle
       case ClosingMux => !s.muxRunning
       case MarkingStopped => !s.muxRunning && !s.handle
       case EndingMux => true
       case Idle => s.stopSeen ==> s.status == StatusStopped || s.status == StatusError
       case Releasing | Gone =>
         s.prepare == NotCreated || s.status == StatusStopped || s.status == StatusError
  }

  ghost predicate Inv(s: State) {
    StatusOk(s) && HandleOk(s) && MuxOk(s) && CallerOk(s)
  }

  lemma StopStep(d: Discipline, s: State)
    requires Inv(s) && Enabled(d, s, CallerStep)
    requires s.caller.StopSecondTest? || s.caller.JoiningPrepare? || s.caller.EndingMux?
    ensures Inv(CallerNext(s))
  {
  }

  lemma JoinStep(d: Discipline, s: State)
    requires Inv(s) && Enabled(d, s, CallerStep)
    requires s.caller.JoiningMux? || s.caller.ClosingMux?
    ensures Inv(CallerNext(s))
  {
  }

  lemma FinishStep(d: Discipline, s: State)
    requires Inv(s) && Enabled(d, s, CallerStep)
    requires s.caller.MarkingStopped? || s.caller.Releasing?
    ensures Inv(CallerNext(s))
  {
  }

  lemma PrepareKeeps(d: Discipline, s: State, ok: bool)
    requires Inv(s) && Enabled(d, s, PrepareStep(ok))
    ensures Inv(PrepareNext(s, ok))
  {
  }

  lemma CallKeeps(d: Discipline, s: State, e: Event)
    requires d.stopsFirst && Inv(s) && Enabled(d, s, e)
    requires e.CallPrepare? || e.CallStop? || e.CallRelease? || e.MuxExits?
    ensures Inv(Step(d, s, e))
  {
  }

  lemma {:induction false} StepKeeps(d: Discipline, s: State, e: Event)
    requires d.stopsFirst && Inv(s) && Enabled(d, s, e)
    ensures Inv(Step(d, s, e))
  {
    match e {
      case PrepareStep(ok) => PrepareKeeps(d, s, ok);
      case CallerStep =>
        if s.caller.StopSecondTest? || s.caller.JoiningPrepare? || s.caller.EndingMux? {
          StopStep(d, s);
        } else if s.caller.JoiningMux? || s.caller.ClosingMux? {
          JoinStep(d, s);
        } else {
          FinishStep(d, s);
        }
      case _ => CallKeeps(d, s, e);
    }
  }

  lemma InvIsSafe(s: State)
    requires Inv(s)
    ensures Safe(s)
  {
  }

  lemma {:induction false} SafeWhenStopped(d: Discipline, es: seq<Event>)
    requires d.stopsFirst && Legal(d, es)
    ensures Inv(Run(d, es)) && Safe(Run(d, es))
    decreases |es|
  {
    if es != [] {
      SafeWhenStopped(d, es[..|es| - 1]);
      StepKeeps(d, Run(d, es[..|es| - 1]), es[|es| - 1]);
    }
    InvIsSafe(Run(d, es));
  }

  /** A release without a stop: the handle is closed under the prepare thread. */
  lemma UnstoppedRelease(d: Discipline) returns (es: seq<Event>)
    requires !d.stopsFirst
    ensures Legal(d, es) && !Safe(Run(d, es))
  {
    es := [];
    es := Then(d, es, CallPrepare(true));
    es := Then(d, es, PrepareStep(true));
    es := Then(d, es, PrepareStep(true));
    es := Then(d, es, CallRelease);
    es := Then(d, es, CallerStep);
  }

  lemma Then(d: Discipline, es: seq<Event>, e: Event) returns (es': seq<Event>)
    requires Legal(d, es) && Enabled(d, Run(d, es), e)
    ensures Legal(d, es') && Run(d, es') == Step(d, Run(d, es), e)
  {
    es' := es + [e];
    assert es'[..|es|] == es;
  }

  /** Join before free, for any calls of prepare and stop in any order and then a release, over every interleaving
      with the prepare thread and the mux thread, failed preparations and failed thread creations included: it holds
      exactly when callers stop a streamer that they have prepared. */
  lemma JoinBeforeFreeIff(d: Discipline)
    ensures (forall es :: Legal(d, es) ==> Safe(Run(d, es))) <==> d.stopsFirst
  {
    if d.stopsFirst {
      forall es | Legal(d, es)
        ensures Safe(Run(d, es))
      {
        SafeWhenStopped(d, es);
      }
    } else {
      var es := UnstoppedRelease(d);
    }
  }

  // ----- Joining a thread that exists -----

  /** Whoever is about to join the prepare thread, or to join a mux thread it has an id of, joins one that exists. */
  ghost predicate JoinsReal(s: State) {
    (s.caller.JoiningPrepare? ==> s.prepare != NotCreated) && (s.caller.JoiningMux? && s.muxId ==> s.muxCreated > 0)
  }

  ghost predicate CreatedOk(s: State) {
    && (s.status != StatusInit ==> s.prepare != NotCreated)
    && (s.caller.StopSecondTest? || s.caller.JoiningPrepare? ==> s.status != StatusInit)
    && (s.muxId ==> s.muxCreated > 0)
  }

  /** Before a prepare there is nothing to join. */
  ghost predicate CreatedInv(s: State) {
    CreatedOk(s) && (s.status == StatusInit ==> s.prepare == NotCreated && !PastJoin(s.caller))
  }

  lemma CallerCreated(d: Discipline, s: State)
    requires d.creates && CreatedInv(s) && Enabled(d, s, CallerStep)
    ensures CreatedInv(CallerNext(s))
  {
  }

  lemma PrepareCreated(d: Discipline, s: State, ok: bool)
    requires d.creates && CreatedInv(s) && Enabled(d, s, PrepareStep(ok))
    ensures CreatedInv(PrepareNext(s, ok))
  {
  }

  lemma CreatedStep(d: Discipline, s: State, e: Event)
    requires d.creates && CreatedInv(s) && Enabled(d, s, e)
    ensures CreatedInv(Step(d, s, e))
  {
    match e {
      case CallerStep => CallerCreated(d, s);
      case PrepareStep(ok) => PrepareCreated(d, s, ok);
      case _ =>
    }
  }

  lemma {:induction false} CreatedAlways(d: Discipline, es: seq<Event>)
    requires d.creates && Legal(d, es)
    ensures CreatedInv(Run(d, es))
    decreases |es|
  {
    if es != [] {
      CreatedAlways(d, es[..|es| - 1]);
      CreatedStep(d, Run(d, es[..|es| - 1]), es[|es| - 1]);
    }
  }

  /** A prepare whose thread cannot be created still returns 0 and leaves the status Preparing. */
  lemma JoinOfNothing(d: Discipline) returns (es: seq<Event>)
    requires !d.creates
    ensures Legal(d, es) && !JoinsReal(Run(d, es))
  {
    es := [];
    es := Then(d, es, CallPrepare(false));
    es := Then(d, es, CallStop);
    es := Then(d, es, CallerStep);
  }

  /** Over every interleaving, a stop joins only threads that exist, exactly when their creation does not fail. */
  lemma CreatedBeforeJoinIff(d: Discipline)
    ensures (forall es :: Legal(d, es) ==> JoinsReal(Run(d, es))) <==> d.creates
  {
    if d.creates {
      forall es | Legal(d, es)
        ensures JoinsReal(Run(d, es))
      {
        CreatedAlways(d, es);
      }
    } else {
      var es := JoinOfNothing(d);
    }
  }

  // ----- What a prepare and a stop leave behind -----

  /** Where the prepare thread failed, if it did. */
  ghost function Failure(d: Discipline, es: seq<Event>): Option<PreparePc>
    requires Legal(d, es)
  {
    if es == [] then None
    else
      var (before, e) := (es[..|es| - 1], es[|es| - 1]);
      var pc := Run(d, before).prepare;
      if e == PrepareStep(false) && (pc.Opening? || pc.Preparing? || pc.StartingMux?) then Some(pc)
      else Failure(d, before)
  }

  ghost predicate Opened(s: State, failure: Option<PreparePc>) {
    s.prepare != NotCreated && s.prepare != TestingStatus && s.prepare != Opening && failure != Some(Opening)
  }

  /** How far the prepare thread has come, and with what. */
  ghost predicate PrepareOk(s: State, failure: Option<PreparePc>) {
    match s.prepare
    case MarkingError => failure == Some(Preparing)
    case NotifyingError =>
      || (failure == Some(Opening) && s.status == StatusPreparing)
      || (failure == Some(Preparing) && s.status == StatusError)
    case Done =>
      && (failure.Some? ==> failure.value.Opening? || failure.value.Preparing? || failure.value.StartingMux?)
      && (s.status == StatusStopped
          || s.status == (if failure == Some(Opening) then StatusPreparing
                          else if failure == Some(Preparing) then StatusError else StatusStreaming))
    case _ => failure == None
  }

  /** A mux thread was created exactly if the prepare thread got through, and the handle is open or closed once exactly
      if it was opened; a stop that has returned, and a release, leave nothing behind. */
  ghost predicate OutcomeOk(s: State, failure: Option<PreparePc>) {
    && PrepareOk(s, failure)
    && s.muxCreated == (if s.prepare == Done && failure == None then 1 else 0)
    && s.closed + (if s.handle then 1 else 0) == (if Opened(s, failure) then 1 else 0)
    && (s.caller.ClosingMux? || s.caller.MarkingStopped? || s.status == StatusStopped ==> s.muxJoined == s.muxCreated)
    && (s.closed == 1 ==> s.caller.MarkingStopped? || s.caller.Gone? || s.status == StatusStopped)
    && (s.caller.MarkingStopped? || s.caller.Gone? || s.status == StatusStopped ==> !s.handle)
  }

  ghost function NextFailure(s: State, e: Event, failure: Option<PreparePc>): Option<PreparePc> {
    if e == PrepareStep(false) && (s.prepare.Opening? || s.prepare.Preparing? || s.prepare.StartingMux?)
    then Some(s.prepare) else failure
  }

  lemma CallerOutcome(d: Discipline, s: State, failure: Option<PreparePc>)
    requires d.stopsFirst && Inv(s) && OutcomeOk(s, failure) && Enabled(d, s, CallerStep)
    ensures OutcomeOk(CallerNext(s), failure)
  {
  }

  lemma PrepareOutcomeStep(d: Discipline, s: State, failure: Option<PreparePc>, ok: bool)
    requires d.stopsFirst && Inv(s) && OutcomeOk(s, failure) && Enabled(d, s, PrepareStep(ok))
    ensures OutcomeOk(PrepareNext(s, ok), NextFailure(s, PrepareStep(ok), failure))
  {
  }

  lemma CallOutcome(d: Discipline, s: State, failure: Option<PreparePc>, e: Event)
    requires d.stopsFirst && Inv(s) && OutcomeOk(s, failure) && Enabled(d, s, e)
    requires e.CallPrepare? || e.CallStop? || e.CallRelease? || e.MuxExits?
    ensures OutcomeOk(Step(d, s, e), failure)
  {
  }

  lemma {:induction false} OutcomeAlways(d: Discipline, es: seq<Event>)
    requires d.stopsFirst && Legal(d, es)
    ensures OutcomeOk(Run(d, es), Failure(d, es))
    decreases |es|
  {
    if es != [] {
      var (before, e) := (es[..|es| - 1], es[|es| - 1]);
      var (s, failure) := (Run(d, before), Failure(d, before));
      OutcomeAlways(d, before);
      SafeWhenStopped(d, before);
      match e {
        case CallerStep => CallerOutcome(d, s, failure);
        case PrepareStep(ok) => PrepareOutcomeStep(d, s, failure, ok);
        case _ => CallOutcome(d, s, failure, e);
      }
    }
  }

  /** What a prepare comes to, over every interleaving: a prepare thread that is through, before a stop has returned,
      has started exactly one mux thread and set the status to Streaming if nothing failed; if opening failed, the
      status is still Preparing and nothing is open; if preparing failed, the status is Error; and there is no mux
      thread. */
  lemma {:induction false} PrepareOutcome(d: Discipline, es: seq<Event>)
    requires d.stopsFirst && Legal(d, es)
    requires Run(d, es).prepare == Done && Run(d, es).status != StatusStopped
    ensures var s := Run(d, es);
            match Failure(d, es)
            case None => s.status == StatusStreaming && s.muxCreated == 1
            case Some(pc) =>
              && s.muxCreated == 0
              && s.status == (if pc.Opening? then StatusPreparing
                              else if pc.Preparing? then StatusError else StatusStreaming)
              && (pc.Opening? ==> !s.handle && s.closed == 0)
  {
    OutcomeAlways(d, es);
  }

  /** What a stop leaves, over every interleaving: once it has returned on a prepared streamer, the prepare thread has
      been joined once, the mux thread once if there was one, and the handle has been closed once if it was opened; so
      it is after a release, which closes what a failed prepare has left open. */
  lemma {:induction false} StopOutcome(d: Discipline, es: seq<Event>)
    requires d.stopsFirst && Legal(d, es)
    requires Run(d, es).status == StatusStopped || Run(d, es).caller.Gone?
    ensures var s := Run(d, es);
            && !s.handle && !s.muxRunning && s.closed == (if Opened(s, Failure(d, es)) then 1 else 0)
            && s.muxJoined == s.muxCreated
            && (s.status == StatusStopped ==> s.prepareJoined == 1)
  {
    OutcomeAlways(d, es);
    SafeWhenStopped(d, es);
  }

  /** A stop on a streamer whose preparation has failed returns at once: it joins nothing and closes nothing, so only
      the release closes the handle, and the prepare thread is never joined. */
  lemma StopOnError(d: Discipline, s: State)
    requires s.caller.Idle? && s.status == StatusError
    ensures Enabled(d, s, CallStop) && Enabled(d, Step(d, s, CallStop), CallerStep)
    ensures Step(d, Step(d, s, CallStop), CallerStep) == s.(stopSeen := true)
  {
  }

  lemma PrepareSteps(d: Discipline, es: seq<Event>, n: nat) returns (es': seq<Event>)
    requires Legal(d, es) && n <= 6 && Run(d, es).prepare == AfterOpen(0)
    requires Run(d, es).handle && !Run(d, es).muxId
    ensures Legal(d, es') && Run(d, es').prepare == AfterOpen(n)
    ensures var (s, t) := (Run(d, es), Run(d, es'));
            t == (if n == 6 then s.(muxId := true, muxRunning := true, muxCreated := s.muxCreated + 1) else s).(
              prepare := AfterOpen(n),
              status := if n >= 5 then StatusStreaming else if n >= 3 then StatusPrepared else s.status)
  {
    es' := es;
    if n > 0 {
      es' := PrepareSteps(d, es, n - 1);
      es' := Then(d, es', PrepareStep(true));
    }
  }

  /** The places of the prepare thread after it has opened the handle. */
  ghost function AfterOpen(n: nat): PreparePc {
    if n == 0 then Registering else if n == 1 then Preparing else if n == 2 then MarkingPrepared
    else if n == 3 then NotifyingOk else if n == 4 then MarkingStreaming else if n == 5 then StartingMux else Done
  }

  lemma Prepared(d: Discipline) returns (es: seq<Event>)
    ensures Legal(d, es)
    ensures Run(d, es) == State(StatusStreaming, Idle, Done, 0, true, 0, true, true, 1, 0, false)
  {
    es := [];
    es := Then(d, es, CallPrepare(true));
    es := Then(d, es, PrepareStep(true));
    es := Then(d, es, PrepareStep(true));
    es := PrepareSteps(d, es, 6);
  }

  lemma StoppedAgain(d: Discipline, es: seq<Event>) returns (es': seq<Event>)
    requires Legal(d, es) && Run(d, es) == State(StatusStreaming, Idle, Done, 0, true, 0, true, true, 1, 0, false)
    ensures Legal(d, es')
    ensures Run(d, es') == State(StatusStopped, Idle, Done, 1, false, 1, false, false, 1, 1, true)
  {
    es' := Then(d, es, CallStop);
    es' := Then(d, es', CallerStep);
    es' := Then(d, es', CallerStep);
    es' := Then(d, es', CallerStep);
    es' := Then(d, es', MuxExits);
    es' := Then(d, es', CallerStep);
    es' := Then(d, es', CallerStep);
    es' := Then(d, es', CallerStep);
  }

  /** A whole life, whatever the discipline: prepare, stream, stop, release. */
  lemma WholeLife(d: Discipline) returns (es: seq<Event>)
    ensures Legal(d, es) && Run(d, es) == State(StatusStopped, Gone, Done, 1, false, 1, false, false, 1, 1, true)
  {
    es := Prepared(d);
    es := StoppedAgain(d, es);
    es := Then(d, es, CallRelease);
    es := Then(d, es, CallerStep);
  }
}
