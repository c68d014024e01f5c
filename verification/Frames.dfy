/** Reassembled frames and the wrapping order of their numbers. */
module Frames {
  import opened Common

  /** Forward distances below this count as newer or equal. */
  const HALF32: nat := 0x7FFF_FFFF

  datatype CompleteFrame = CompleteFrame(
    stream: u8,
    frameNumber: u32,
    timestampUs: u64,
    keyframe: bool,
    data: seq<u8>)

  predicate FrameNewerOrEq(a: u32, b: u32) { Sub32(a, b) < HALF32 }

  /** Seen from a common origin less than half the number space behind both, the
      wrapping order is the order of the distances. */
  lemma NewerByDistance(a: u32, b: u32, origin: u32)
    requires Sub32(a, origin) < HALF32 && Sub32(b, origin) < HALF32
    ensures FrameNewerOrEq(a, b) <==> Sub32(a, origin) >= Sub32(b, origin)
    ensures a == b <==> Sub32(a, origin) == Sub32(b, origin)
    ensures Sub32(a, origin) >= Sub32(b, origin) ==> Sub32(a, b) == Sub32(a, origin) - Sub32(b, origin)
  {
    var d := Sub32(a, origin) - Sub32(b, origin);
    assert Sub32(a, b) == if d >= 0 then d else d + 0x1_0000_0000;
  }
}
