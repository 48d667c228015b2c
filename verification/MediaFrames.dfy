// The values that travel through the pipeline: frames, packets and optional pointers.
module MediaFrames {

  /** A C pointer that may be NULL, or a lookup that may fail. */
  datatype Option<+T> = None | Some(value: T)

  datatype StreamType = Video | Audio

  /** What a payload pointer points at: nothing, a captured AVPacket, or the bytes of an encoded one. */
  datatype Buffer = NoBuffer | PacketItself(pkt: nat) | PacketBytes(pkt: nat)

  /** The fields of `mediaFrame` that the cleaner, the encoders and the muxer read. */
  datatype MediaFrame = MediaFrame(pBuffer: Buffer, size: int, pts: int, dts: int, flag: int)
  {
    /** `flag` holds only the AV_PKT_FLAG_KEY bit, so a key frame is one with a non-zero flag. */
    predicate IsKey() {
      flag != 0
    }
  }
}
