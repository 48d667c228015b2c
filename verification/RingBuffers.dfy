// The two containers of utils/StreamerStack.h: a circular FIFO and a bounded LIFO pool.
module RingBuffers {
  import opened MediaFrames

  /** The `n` elements of a circular buffer that start at index `head` and wrap at the end. */
  ghost function Window<T>(data: seq<T>, head: nat, n: nat): (w: seq<T>)
    requires n <= |data|
    requires head < |data| || (head == 0 && n == 0)
    ensures |w| == n
  {
    if head + n <= |data| then data[head..head + n] else data[head..] + data[..head + n - |data|]
  }

  lemma AtLeastTwice(n: nat, q: nat)
    requires q >= 2
    ensures n * q >= 2 * n
  {
    assert n * q == n * 2 + n * (q - 2);
  }

  lemma WrapOnce(x: nat, n: nat)
    requires x < 2 * n
    ensures x % n == if x < n then x else x - n
  {
    var (q, r) := (x / n, x % n);
    assert x == n * q + r;
    if q == 0 {
      assert n * q == 0;
    } else if q >= 2 {
      AtLeastTwice(n, q);
    } else {
      assert n * q == n;
    }
  }

  /** Element `i` of the window is found `i` places after the head, modulo the capacity. */
  lemma {:induction false} WindowAt<T>(data: seq<T>, head: nat, n: nat, i: nat)
    requires n <= |data| && head < |data| && i < n
    ensures (head + i) % |data| < |data|
    ensures Window(data, head, n)[i] == data[(head + i) % |data|]
  {
    WrapOnce(head + i, |data|);
  }

  /** Writing at the tail extends the window by one element. */
  lemma {:induction false} WindowGrows<T>(data: seq<T>, head: nat, n: nat, x: T)
    requires head < |data| && n < |data|
    ensures (head + n) % |data| < |data|
    ensures Window(data[(head + n) % |data| := x], head, n + 1) == Window(data, head, n) + [x]
    ensures ((head + n) % |data| + 1) % |data| == (head + n + 1) % |data|
  {
    WrapOnce(head + n, |data|);
    WrapOnce(head + n + 1, |data|);
    WrapOnce((head + n) % |data| + 1, |data|);
  }

  /** Advancing the head drops the first element of the window. */
  lemma {:induction false} WindowShrinks<T>(data: seq<T>, head: nat, n: nat)
    requires head < |data| && 0 < n <= |data|
    ensures (head + 1) % |data| < |data|
    ensures Window(data, (head + 1) % |data|, n - 1) == Window(data, head, n)[1..]
    ensures ((head + 1) % |data| + (n - 1)) % |data| == (head + n) % |data|
  {
    WrapOnce(head + 1, |data|);
    WrapOnce(head + n, |data|);
    if head + 1 < |data| {
      WindowWithoutHead(data, head, n);
    } else {
      WrapOnce(n - 1, |data|);
    }
  }

  lemma WindowWithoutHead<T>(data: seq<T>, head: nat, n: nat)
    requires head + 1 < |data| && 0 < n <= |data|
    ensures Window(data, head + 1, n - 1) == Window(data, head, n)[1..]
  {
  }

  /** What `put` does to a bounded queue: it appends, or refuses when the queue is full. */
  function Bounded<T>(capacity: nat, q: seq<T>, x: T): seq<T> {
    if |q| == capacity then q else q + [x]
  }

  function Rest<T>(q: seq<T>): seq<T> {
    if q == [] then [] else q[1..]
  }

  class StreamerFiFo<T(0)> {
    const mCapacity: nat
    const mData: array<T>
    var mHeader: nat
    var mTail: nat
    var mSize: nat

    ghost predicate Valid()
      reads this, mData
    {
      && mData.Length == mCapacity
      && mSize <= mCapacity
      && (mCapacity == 0 ==> mHeader == mTail == 0)
      && (mCapacity > 0 ==> mHeader < mCapacity && mTail < mCapacity && mTail == (mHeader + mSize) % mCapacity)
    }

    ghost function Contents(): (q: seq<T>)
      reads this, mData
      requires Valid()
      ensures |q| == mSize
    {
      Window(mData[..], mHeader, mSize)
    }

    constructor (capacity: nat := 100)
      ensures Valid() && fresh(mData)
      ensures mCapacity == capacity && Contents() == []
    {
      mHeader, mTail, mSize := 0, 0, 0;
      mCapacity := capacity;
      mData := new T[capacity];
    }

    method Put(x: T) returns (ret: int)
      requires Valid()
      modifies this, mData
      ensures Valid()
      ensures |old(Contents())| == mCapacity ==> ret == -1 && Contents() == old(Contents())
      ensures |old(Contents())| != mCapacity ==> ret == 0 && Contents() == old(Contents()) + [x]
    {
      if mSize == mCapacity {
        return -1;
      }
      WindowGrows(mData[..], mHeader, mSize, x);
      mData[mTail] := x;
      mTail := mTail + 1;
      mTail := mTail % mCapacity;
      mSize := mSize + 1;
      return 0;
    }

    method Get() returns (x: Option<T>)
      requires Valid()
      modifies this`mHeader, this`mSize
      ensures Valid()
      ensures old(Contents()) == [] ==> x == None && Contents() == []
      ensures old(Contents()) != [] ==> x.Some? && old(Contents()) == [x.value] + Contents()
    {
      if mSize == 0 {
        return None;
      }
      WindowShrinks(mData[..], mHeader, mSize);
      x := Some(mData[mHeader]);
      mHeader := mHeader + 1;
      mHeader := mHeader % mCapacity;
      mSize := mSize - 1;
    }

    method Peak() returns (x: Option<T>)
      requires Valid()
      ensures if Contents() == [] then x == None else x == Some(Contents()[0])
    {
      if mSize == 0 {
        return None;
      }
      return Some(mData[mHeader]);
    }
  }

  /** The bounded pool of recycled frames. */
  class StreamerStack<T(0)> {
    const mCapacity: nat
    const mPData: array<T>
    var mSize: nat

    ghost predicate Valid()
      reads this
    {
      mPData.Length == mCapacity && mSize <= mCapacity
    }

    ghost function Contents(): seq<T>
      reads this, mPData
      requires Valid()
    {
      mPData[..mSize]
    }

    constructor (capacity: nat)
      ensures Valid() && fresh(mPData)
      ensures mCapacity == capacity && Contents() == []
    {
      mPData := new T[capacity];
      mSize := 0;
      mCapacity := capacity;
    }

    method Push(x: T) returns (ret: int)
      requires Valid()
      modifies this, mPData
      ensures Valid()
      ensures |old(Contents())| == mCapacity ==> ret == -1 && Contents() == old(Contents())
      ensures |old(Contents())| != mCapacity ==> ret == 0 && Contents() == old(Contents()) + [x]
    {
      if mSize == mCapacity {
        return -1;
      }
      mPData[mSize] := x;
      mSize := mSize + 1;
      return 0;
    }

    method Pop() returns (x: Option<T>)
      requires Valid()
      modifies this`mSize
      ensures Valid()
      ensures old(Contents()) == [] ==> x == None && Contents() == []
      ensures old(Contents()) != [] ==> x.Some? && old(Contents()) == Contents() + [x.value]
    {
      if mSize == 0 {
        return None;
      }
      mSize := mSize - 1;
      return Some(mPData[mSize]);
    }
  }

  /** One call on the FIFO, as a step of a history. */
  datatype FifoCall<T> = CallPut(x: T) | CallGet

  /** Any history of calls, replayed on a plain sequence. */
  function Replay<T>(capacity: nat, q: seq<T>, calls: seq<FifoCall<T>>): seq<T>
    decreases |calls|
  {
    if calls == [] then q
    else
      var q' := match calls[0]
                case CallPut(x) => Bounded(capacity, q, x)
                case CallGet => Rest(q);
      Replay(capacity, q', calls[1..])
  }

  /** The elements that a history stores, in order. */
  function Stored<T>(capacity: nat, q: seq<T>, calls: seq<FifoCall<T>>): seq<T>
    decreases |calls|
  {
    if calls == [] then []
    else match calls[0]
      case CallPut(x) => (if |q| == capacity then [] else [x]) + Stored(capacity, Bounded(capacity, q, x), calls[1..])
      case CallGet => Stored(capacity, Rest(q), calls[1..])
  }

  /** The elements that a history takes out, in order. */
  function Taken<T>(capacity: nat, q: seq<T>, calls: seq<FifoCall<T>>): seq<T>
    decreases |calls|
  {
    if calls == [] then []
    else match calls[0]
      case CallPut(x) => Taken(capacity, Bounded(capacity, q, x), calls[1..])
      case CallGet => (if q == [] then [] else [q[0]]) + Taken(capacity, Rest(q), calls[1..])
  }

  /** For every capacity and history: what went in is what came out followed by what is left,
      and the capacity is never exceeded. */
  lemma {:induction false} FifoHistory<T>(capacity: nat, q: seq<T>, calls: seq<FifoCall<T>>)
    requires |q| <= capacity
    ensures q + Stored(capacity, q, calls) == Taken(capacity, q, calls) + Replay(capacity, q, calls)
    ensures |Replay(capacity, q, calls)| <= capacity
    decreases |calls|
  {
    if calls != [] {
      match calls[0] {
        case CallPut(x) =>
          FifoHistory(capacity, Bounded(capacity, q, x), calls[1..]);
        case CallGet =>
          FifoHistory(capacity, Rest(q), calls[1..]);
          if q != [] {
            assert q + Stored(capacity, q, calls) == [q[0]] + (q[1..] + Stored(capacity, Rest(q), calls[1..]));
          }
      }
    }
  }
}
