// The bounded frame queue of utils/mediaThread.cpp, one method per critical section:
// a timed wait releases the mutex, so a call that sleeps is two critical sections.
// The concurrency between them is the subject of QueueProtocol.dfy.
module FrameQueues {
  import opened MediaFrames
  import opened RingBuffers

  const ETIMEDOUT := 60

  /** How `pthread_cond_timedwait` came back: the code looks only for ETIMEDOUT. */
  datatype WaitResult = TimedOut | AnythingElse

  datatype CleanVerdict = CleanVerdict(clean: bool, stop: bool)

  /** A clean callback: it sees its counter and the oldest frame, and leaves a new counter. */
  type Cleaner = (int, MediaFrame) -> (CleanVerdict, int)

  const CLEAN := CleanVerdict(true, false)
  const STOP := CleanVerdict(false, true)

  /** The callback for the encoded video queue. */
  function CleanVideo(counter: int, frame: MediaFrame): (CleanVerdict, int) {
    if frame.flag == 0 || counter == 0 then (CLEAN, counter + 1) else (STOP, counter)
  }

  /** The callback for the encoded audio queue. */
  function CleanAudio(counter: int, frame: MediaFrame): (CleanVerdict, int) {
    if counter < 100 then (CLEAN, counter + 1) else (STOP, counter)
  }

  /** The verdict on one frame; without a callback every frame is cleaned. */
  function Verdict(func: Option<Cleaner>, counter: int, frame: MediaFrame): (CleanVerdict, int) {
    match func
    case None => (CLEAN, counter)
    case Some(f) => f(counter, frame)
  }

  /** A callback that neither cleans nor stops would make `cleanIf` spin for ever. */
  ghost predicate Decisive(func: Option<Cleaner>) {
    forall counter, frame :: Verdict(func, counter, frame).0.clean || Verdict(func, counter, frame).0.stop
  }

  /** How many frames `cleanIf` takes from the front of `q`. */
  ghost function CleanCount(func: Option<Cleaner>, counter: int, q: seq<MediaFrame>): (k: nat)
    ensures k <= |q|
    decreases |q|
  {
    if q == [] then 0
    else
      var (verdict, counter') := Verdict(func, counter, q[0]);
      if !verdict.clean then 0
      else if verdict.stop then 1
      else 1 + CleanCount(func, counter', q[1..])
  }

  /** The callback's counter when it sees the `i`-th frame. */
  ghost function CounterAt(func: Option<Cleaner>, counter: int, q: seq<MediaFrame>, i: nat): int
    requires i <= |q|
  {
    if i == 0 then counter else Verdict(func, CounterAt(func, counter, q, i - 1), q[i - 1]).1
  }

  ghost function VerdictAt(func: Option<Cleaner>, counter: int, q: seq<MediaFrame>, i: nat): CleanVerdict
    requires i < |q|
  {
    Verdict(func, CounterAt(func, counter, q, i), q[i]).0
  }

  lemma {:induction false} CounterAtTail(func: Option<Cleaner>, counter: int, q: seq<MediaFrame>, i: nat)
    requires 0 < i <= |q|
    ensures CounterAt(func, counter, q, i) == CounterAt(func, Verdict(func, counter, q[0]).1, q[1..], i - 1)
  {
    if i > 1 {
      CounterAtTail(func, counter, q, i - 1);
    }
  }

  /** Whatever the callback: the frames that `cleanIf` takes were all asked for, only the last may have asked to stop,
      and it goes on until a verdict says not to clean, or to stop, or the queue is empty. */
  lemma {:induction false} CleanCountIs(func: Option<Cleaner>, counter: int, q: seq<MediaFrame>)
    ensures var k := CleanCount(func, counter, q);
            && (forall i | 0 <= i < k :: VerdictAt(func, counter, q, i).clean)
            && (forall i | 0 <= i < k - 1 :: !VerdictAt(func, counter, q, i).stop)
            && (k < |q| ==> (k > 0 && VerdictAt(func, counter, q, k - 1).stop) || !VerdictAt(func, counter, q, k).clean)
    decreases |q|
  {
    if q != [] {
      var counter' := Verdict(func, counter, q[0]).1;
      CleanCountIs(func, counter', q[1..]);
      forall i | 0 < i < |q|
        ensures VerdictAt(func, counter, q, i) == VerdictAt(func, counter', q[1..], i - 1)
      {
        CounterAtTail(func, counter, q, i);
      }
    }
  }

  lemma {:induction false} CleanAllTakesAll(counter: int, q: seq<MediaFrame>)
    ensures CleanCount(None, counter, q) == |q|
  {
    if q != [] {
      CleanAllTakesAll(counter, q[1..]);
    }
  }

  /** `myCleanQueueV` takes the head and the delta frames behind it, and nothing else:
      what is left is empty or starts with a key frame. */
  lemma CleanVideoStopsAtKey(q: seq<MediaFrame>)
    requires q != []
    ensures var k := CleanCount(Some(CleanVideo), 0, q);
            && 1 <= k
            && (forall i | 1 <= i < k :: !q[i].IsKey())
            && (k < |q| ==> q[k].IsKey())
  {
    CleanVideoTail(1, q[1..]);
  }

  lemma {:induction false} CleanVideoTail(counter: int, q: seq<MediaFrame>)
    requires counter > 0
    ensures var k := CleanCount(Some(CleanVideo), counter, q);
            && (forall i | 0 <= i < k :: !q[i].IsKey())
            && (k < |q| ==> q[k].IsKey())
    decreases |q|
  {
    if q != [] && !q[0].IsKey() {
      CleanVideoTail(counter + 1, q[1..]);
      assert forall i | 1 <= i < |q| :: q[i] == q[1..][i - 1];
    }
  }

  /** `myCleanQueueA` takes the oldest hundred frames, or all of them. */
  lemma {:induction false} CleanAudioTakesHundred(counter: nat, q: seq<MediaFrame>)
    requires counter <= 100
    ensures CleanCount(Some(CleanAudio), counter, q) == if |q| < 100 - counter then |q| else 100 - counter
    decreases |q|
  {
    if q != [] && counter < 100 {
      CleanAudioTakesHundred(counter + 1, q[1..]);
    }
  }

  class MediaFrameQueue {
    const mQueue: StreamerFiFo<MediaFrame>

    ghost predicate Valid()
      reads this, mQueue, mQueue.mData
    {
      mQueue.Valid()
    }

    ghost function Contents(): seq<MediaFrame>
      reads this, mQueue, mQueue.mData
      requires Valid()
    {
      mQueue.Contents()
    }

    constructor (capacity: nat)
      ensures Valid() && fresh(mQueue) && fresh(mQueue.mData)
      ensures mQueue.mCapacity == capacity && Contents() == []
    {
      mQueue := new StreamerFiFo(capacity);
    }

    /** `enqueue` up to its return or its timed wait; None: the caller sleeps. */
    method EnqueueEnter(pFrame: MediaFrame) returns (ret: Option<int>)
      requires Valid()
      modifies mQueue, mQueue.mData
      ensures Valid()
      ensures |old(Contents())| == mQueue.mCapacity ==> ret == None && Contents() == old(Contents())
      ensures |old(Contents())| != mQueue.mCapacity ==> ret == Some(0) && Contents() == old(Contents()) + [pFrame]
    {
      if mQueue.mSize == mQueue.mCapacity {
        return None;
      }
      var ignored := mQueue.Put(pFrame);
      return Some(0);
    }

    /** The rest of `enqueue` after its timed wait. A refused `put` goes unnoticed. */
    method EnqueueResume(pFrame: MediaFrame, wait: WaitResult) returns (ret: int)
      requires Valid()
      modifies mQueue, mQueue.mData
      ensures Valid()
      ensures wait == TimedOut ==> ret == -ETIMEDOUT && Contents() == old(Contents())
      ensures wait == AnythingElse ==> ret == 0
      ensures wait == AnythingElse ==>
                Contents() == old(Contents()) + if |old(Contents())| == mQueue.mCapacity then [] else [pFrame]
    {
      if wait == TimedOut {
        return -ETIMEDOUT;
      }
      var ignored := mQueue.Put(pFrame);
      return 0;
    }

    /** `dequeue` up to its return or its timed wait; None: the caller sleeps. */
    method DequeueEnter() returns (ret: Option<MediaFrame>)
      requires Valid()
      modifies mQueue, mQueue.mData
      ensures Valid()
      ensures old(Contents()) == [] ==> ret == None && Contents() == []
      ensures old(Contents()) != [] ==> ret.Some? && old(Contents()) == [ret.value] + Contents()
    {
      if mQueue.mSize == 0 {
        return None;
      }
      ret := mQueue.Get();
    }

    /** The rest of `dequeue` after its timed wait; the frame may be gone, and then it is NULL. */
    method DequeueResume(wait: WaitResult) returns (pFrame: Option<MediaFrame>)
      requires Valid()
      modifies mQueue, mQueue.mData
      ensures Valid()
      ensures wait == TimedOut ==> pFrame == None && Contents() == old(Contents())
      ensures wait == AnythingElse && old(Contents()) == [] ==> pFrame == None && Contents() == []
      ensures wait == AnythingElse && old(Contents()) != [] ==>
                pFrame.Some? && old(Contents()) == [pFrame.value] + Contents()
    {
      if wait == TimedOut {
        return None;
      }
      pFrame := mQueue.Get();
    }

    /** Takes exactly a prefix out of the queue and releases each of its frames once, oldest first. */
    method CleanIf(func: Option<Cleaner>, arg: int) returns (released: seq<MediaFrame>)
      requires Valid() && Decisive(func)
      modifies mQueue, mQueue.mData
      ensures Valid()
      ensures released == old(Contents())[..CleanCount(func, arg, old(Contents()))]
      ensures Contents() == old(Contents())[CleanCount(func, arg, old(Contents()))..]
    {
      ghost var before := Contents();
      ghost var rest := before;
      var counter := arg;
      released := [];
      while mQueue.mSize > 0
        invariant Valid() && Contents() == rest
        invariant before == released + rest
        invariant CleanCount(func, arg, before) == |released| + CleanCount(func, counter, rest)
        decreases mQueue.mSize
      {
        var pFrame := mQueue.Peak();
        var (flag, counter') := Verdict(func, counter, pFrame.value);
        DecisiveHere(func, counter, pFrame.value);
        counter := counter';
        if flag.clean {
          var ignored := mQueue.Get();
          MoveHead(before, released, rest);
          released := released + [pFrame.value];
          rest := rest[1..];
        }
        if flag.stop {
          break;
        }
      }
      SplitBack(before, released, rest);
    }
  }

  lemma MoveHead<T>(all: seq<T>, taken: seq<T>, rest: seq<T>)
    requires all == taken + rest && rest != []
    ensures all == (taken + [rest[0]]) + rest[1..]
  {
  }

  lemma SplitBack<T>(all: seq<T>, taken: seq<T>, rest: seq<T>)
    requires all == taken + rest
    ensures all[..|taken|] == taken && all[|taken|..] == rest
  {
  }

  lemma DecisiveHere(func: Option<Cleaner>, counter: int, frame: MediaFrame)
    requires Decisive(func)
    ensures Verdict(func, counter, frame).0.clean || Verdict(func, counter, frame).0.stop
  {
  }

  /** An absolute deadline, as `make_abstime_latems` fills it in. */
  datatype Timespec = Timespec(sec: int, nsec: int)

  const BILLION := 1_000_000_000

  function MakeAbstime(sec: nat, usec: nat, ms: nat): Timespec {
    var nsec := (usec + ms % 1000 * 1000) * 1000;
    if nsec > BILLION then Timespec(sec + ms / 1000 + 1, nsec - BILLION) else Timespec(sec + ms / 1000, nsec)
  }

  /** The deadline is always `ms` milliseconds ahead, but it is a timespec that
      `pthread_cond_timedwait` accepts exactly when the microseconds do not sum to one second:
      the comparison is strict. The rejected wait comes back at once, without a signal. */
  lemma DeadlineAcceptedIff(sec: nat, usec: nat, ms: nat)
    requires usec < 1_000_000
    ensures var t := MakeAbstime(sec, usec, ms);
            && t.sec * BILLION + t.nsec == sec * BILLION + usec * 1000 + ms * 1_000_000
            && (0 <= t.nsec < BILLION <==> usec + ms % 1000 * 1000 != 1_000_000)
  {
    assert ms == ms / 1000 * 1000 + ms % 1000;
  }
}
