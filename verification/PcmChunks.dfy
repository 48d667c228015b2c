// The PCM accumulation of encoderAudio in MacRTMPStreamer.cpp: packets of any size in, chunks of 8192 bytes out.
module PcmChunks {
  import opened MediaFrames

  const CHUNK := 1024 * 8

  type Byte = bv8

  datatype Pcm = Pcm(bytes: seq<Byte>, pts: int)

  /** The accumulation buffer and what was handed to the encoder so far. */
  datatype State = State(pending: seq<Byte>, chunks: seq<Pcm>)

  /** `memcpy` has room for this packet. */
  predicate Fits(s: State, packet: Pcm) {
    |s.pending| + |packet.bytes| <= CHUNK
  }

  /** A chunk carries the timestamp of the packet that completed it. */
  function Accumulated(s: State, packet: Pcm): State
  {
    var pending := s.pending + packet.bytes;
    if |pending| < CHUNK then s.(pending := pending) else State([], s.chunks + [Pcm(pending, packet.pts)])
  }

  /** The packet waits in the buffer, completed a chunk that went to the encoder, or had no room. */
  datatype Outcome = Kept | Handed | Overrun

  class PcmAccumulator {
    const mPCMBuffer: array<Byte>
    var mPcmSize: nat
    var encoded: seq<Pcm>

    ghost predicate Valid()
      reads this
    {
      mPCMBuffer.Length == CHUNK && mPcmSize < CHUNK
    }

    ghost function Abs(): State
      reads this, mPCMBuffer
      requires Valid()
    {
      State(mPCMBuffer[..mPcmSize], encoded)
    }

    constructor ()
      ensures Valid() && fresh(mPCMBuffer) && Abs() == State([], [])
    {
      mPCMBuffer := new Byte[CHUNK];
      mPcmSize, encoded := 0, [];
    }

    /** A packet that does not fit overruns the buffer, which the source does not check; here nothing is written
        then. */
    method EncoderAudio(packet: Pcm) returns (outcome: Outcome)
      requires Valid()
      modifies this, mPCMBuffer
      ensures Valid()
      ensures outcome == Overrun <==> !Fits(old(Abs()), packet)
      ensures Abs() == if outcome == Overrun then old(Abs()) else Accumulated(old(Abs()), packet)
      ensures outcome == Handed <==> |old(Abs()).pending| + |packet.bytes| == CHUNK
    {
      if mPcmSize + |packet.bytes| > mPCMBuffer.Length {
        return Overrun;
      }
      var i := 0;
      while i < |packet.bytes|
        invariant 0 <= i <= |packet.bytes|
        invariant mPCMBuffer[..mPcmSize + i] == old(mPCMBuffer[..mPcmSize]) + packet.bytes[..i]
        invariant mPcmSize == old(mPcmSize) && encoded == old(encoded)
        modifies mPCMBuffer
      {
        mPCMBuffer[mPcmSize + i] := packet.bytes[i];
        i := i + 1;
      }
      assert packet.bytes[..i] == packet.bytes;
      mPcmSize := mPcmSize + |packet.bytes|;
      if mPcmSize < CHUNK {
        return Kept;
      }
      encoded := encoded + [Pcm(mPCMBuffer[..mPcmSize], packet.pts)];
      mPcmSize := 0;
      return Handed;
    }
  }

  // ----- Whole runs -----

  ghost function Run(packets: seq<Pcm>): State {
    if packets == [] then State([], []) else Accumulated(Run(packets[..|packets| - 1]), packets[|packets| - 1])
  }

  /** Every packet found room when it came. */
  ghost predicate AllFit(packets: seq<Pcm>) {
    packets == [] ||
    (AllFit(packets[..|packets| - 1]) && Fits(Run(packets[..|packets| - 1]), packets[|packets| - 1]))
  }

  ghost function Bytes(ps: seq<Pcm>): seq<Byte> {
    if ps == [] then [] else Bytes(ps[..|ps| - 1]) + ps[|ps| - 1].bytes
  }

  lemma BytesSnoc(ps: seq<Pcm>, p: Pcm)
    ensures Bytes(ps + [p]) == Bytes(ps) + p.bytes
  {
    assert (ps + [p])[..|ps|] == ps;
  }

  /** Rechunking is lossless: the chunks followed by the buffer are the bytes of all packets in order,
      every chunk is full, and the buffer never is. */
  lemma {:induction false} Lossless(packets: seq<Pcm>)
    requires AllFit(packets)
    ensures var s := Run(packets);
            && Bytes(s.chunks) + s.pending == Bytes(packets)
            && |s.pending| < CHUNK
            && forall c | c in s.chunks :: |c.bytes| == CHUNK
  {
    if packets != [] {
      var before := packets[..|packets| - 1];
      var p := packets[|packets| - 1];
      var s := Run(before);
      Lossless(before);
      BytesSnoc(s.chunks, Pcm(s.pending + p.bytes, p.pts));
      assert Bytes(s.chunks) + (s.pending + p.bytes) == Bytes(s.chunks) + s.pending + p.bytes;
    }
  }

  /** Chunk `j` is complete with packet `i - 1`, and not before; it has that packet's pts and its own share of the
      bytes. */
  ghost predicate CompletedBy(packets: seq<Pcm>, j: nat, chunk: Pcm, i: nat) {
    && 0 < i <= |packets|
    && |Bytes(packets[..i - 1])| < (j + 1) * CHUNK == |Bytes(packets[..i])| <= |Bytes(packets)|
    && chunk.pts == packets[i - 1].pts && chunk.bytes == Bytes(packets)[j * CHUNK..(j + 1) * CHUNK]
  }

  lemma CompletedLater(packets: seq<Pcm>, p: Pcm, j: nat, chunk: Pcm, i: nat)
    requires CompletedBy(packets, j, chunk, i)
    ensures CompletedBy(packets + [p], j, chunk, i)
  {
    BytesSnoc(packets, p);
    assert (packets + [p])[..i] == packets[..i] && (packets + [p])[..i - 1] == packets[..i - 1];
    assert Bytes(packets + [p])[j * CHUNK..(j + 1) * CHUNK] == Bytes(packets)[j * CHUNK..(j + 1) * CHUNK];
  }

  lemma {:induction false} BytesOfChunks(ps: seq<Pcm>)
    requires forall p | p in ps :: |p.bytes| == CHUNK
    ensures |Bytes(ps)| == |ps| * CHUNK
  {
    if ps != [] {
      BytesOfChunks(ps[..|ps| - 1]);
    }
  }

  lemma CompletedNow(packets: seq<Pcm>, p: Pcm, s: State)
    requires Bytes(s.chunks) + s.pending == Bytes(packets) && |s.pending| < CHUNK == |s.pending| + |p.bytes|
    requires |Bytes(s.chunks)| == |s.chunks| * CHUNK
    ensures CompletedBy(packets + [p], |s.chunks|, Pcm(s.pending + p.bytes, p.pts), |packets| + 1)
  {
    BytesSnoc(packets, p);
    assert (packets + [p])[..|packets| + 1] == packets + [p] && (packets + [p])[..|packets|] == packets;
    LastSlice(Bytes(s.chunks), s.pending, p.bytes, |s.chunks|);
  }

  lemma LastSlice(done: seq<Byte>, pending: seq<Byte>, more: seq<Byte>, j: nat)
    requires |done| == j * CHUNK && |pending| + |more| == CHUNK
    ensures |done + pending + more| == (j + 1) * CHUNK
    ensures (done + pending + more)[j * CHUNK..(j + 1) * CHUNK] == pending + more
  {
    assert done + pending + more == done + (pending + more);
  }

  /** Every chunk holds its own 8192 bytes of the stream, and carries the pts of the packet that completed it. */
  lemma {:induction false} ChunkTimes(packets: seq<Pcm>, j: nat) returns (i: nat)
    requires AllFit(packets) && j < |Run(packets).chunks|
    ensures CompletedBy(packets, j, Run(packets).chunks[j], i)
    decreases |packets|
  {
    var (before, p) := (packets[..|packets| - 1], packets[|packets| - 1]);
    var s := Run(before);
    assert packets == before + [p];
    Lossless(before);
    if j < |s.chunks| {
      i := ChunkTimes(before, j);
      CompletedLater(before, p, j, s.chunks[j], i);
    } else {
      BytesOfChunks(s.chunks);
      CompletedNow(before, p, s);
      i := |packets|;
    }
  }

  // ----- Packets of one size -----

  ghost predicate ConstantSize(packets: seq<Pcm>, n: nat) {
    forall p | p in packets :: |p.bytes| == n
  }

  /** The buffer always holds a whole number of packets, fewer than a chunk does. */
  lemma {:induction false} PendingWhenDividing(packets: seq<Pcm>, n: nat, m: nat) returns (x: nat)
    requires n > 0 && CHUNK == m * n && ConstantSize(packets, n)
    ensures AllFit(packets) && |Run(packets).pending| == x * n && x < m
  {
    x := 0;
    if packets != [] {
      var before := packets[..|packets| - 1];
      x := PendingWhenDividing(before, n, m);
      OneMore(x, m, n);
      x := if x + 1 == m then 0 else x + 1;
    }
  }

  lemma OneMore(x: nat, m: nat, n: nat)
    requires n > 0 && x < m
    ensures x * n + n == (x + 1) * n <= m * n
    ensures x + 1 < m ==> (x + 1) * n < m * n
  {
    Scale(x + 1, m, n);
  }

  lemma Scale(a: nat, b: nat, n: nat)
    requires a <= b && n > 0
    ensures a * n <= b * n && (a < b ==> a * n < b * n)
  {
  }

  ghost function Copies(p: Pcm, k: nat): (ps: seq<Pcm>)
    ensures |ps| == k
  {
    seq(k, i => p)
  }

  /** While whole packets fit below the chunk size, they only pile up. */
  lemma {:induction false} Piling(p: Pcm, k: nat)
    requires k * |p.bytes| < CHUNK
    ensures |Run(Copies(p, k)).pending| == k * |p.bytes|
  {
    if k > 0 {
      assert (k - 1) * |p.bytes| + |p.bytes| == k * |p.bytes|;
      assert Copies(p, k)[..k - 1] == Copies(p, k - 1);
      Piling(p, k - 1);
    }
  }

  /** Packets of one size always find room exactly when that size divides the chunk size. */
  lemma ConstantSizeFitsIff(n: nat)
    requires n > 0
    ensures (forall packets :: ConstantSize(packets, n) ==> AllFit(packets)) <==> 8192 % n == 0
  {
    if CHUNK % n == 0 {
      forall packets | ConstantSize(packets, n)
        ensures AllFit(packets)
      {
        var x := PendingWhenDividing(packets, n, CHUNK / n);
      }
    } else {
      var p := Pcm(seq(n, i => 0), 0);
      var k := CHUNK / n;
      assert k * n + CHUNK % n == CHUNK;
      Piling(p, k);
      var packets := Copies(p, k + 1);
      assert packets[..k] == Copies(p, k);
      assert !Fits(Run(packets[..k]), packets[k]);
      assert ConstantSize(packets, n) && !AllFit(packets);
    }
  }
}
