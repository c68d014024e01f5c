/** The castr datagram: its 20-byte header and the packetizer that cuts a frame
    into datagrams. */
module Wire {
  import opened Common

  const HEADER_LEN: nat := 20
  const STREAM_VIDEO: u8 := 0
  const STREAM_AUDIO: u8 := 1
  const FLAG_KEYFRAME: u8 := 1
  const FLAG_END_OF_FRAME: u8 := 2
  const MAX_FRAGMENTS: nat := 0xFFFF

  datatype Header = Header(
    stream: u8,
    flags: u8,
    fragmentIndex: u16,
    fragmentCount: u16,
    frameNumber: u32,
    timestampUs: u64)
  {
    predicate IsKeyframe() { flags % 2 == 1 }
    predicate IsEnd() { flags / 2 % 2 == 1 }
  }

  datatype HeaderError = TooShort | UnknownStream(id: u8)

  /** The header's bytes on the wire. */
  function HeaderBytes(h: Header): (r: seq<u8>)
    ensures |r| == HEADER_LEN
  {
    [h.stream, h.flags] + Le(h.fragmentIndex, 2) + Le(h.fragmentCount, 2) + [0, 0]
    + Le(h.frameNumber, 4) + Le(h.timestampUs, 8)
  }

  method CopyInto(out: array<u8>, at: nat, bytes: seq<u8>)
    requires at + |bytes| <= out.Length
    modifies out
    ensures out[..] == old(out[..at]) + bytes + old(out[at + |bytes|..])
  {
    forall i | 0 <= i < |bytes| { out[at + i] := bytes[i]; }
  }

  /** Writes the header in place, field by field. */
  method Encode(h: Header, out: array<u8>)
    requires out.Length == HEADER_LEN
    modifies out
    ensures out[..] == HeaderBytes(h)
  {
    out[0] := h.stream;
    out[1] := h.flags;
    CopyInto(out, 2, Le(h.fragmentIndex, 2));
    CopyInto(out, 4, Le(h.fragmentCount, 2));
    CopyInto(out, 6, [0, 0]);
    assert out[..8] == [h.stream, h.flags] + Le(h.fragmentIndex, 2) + Le(h.fragmentCount, 2) + [0, 0];
    CopyInto(out, 8, Le(h.frameNumber, 4));
    CopyInto(out, 12, Le(h.timestampUs, 8));
  }

  function FieldLe(buf: seq<u8>, at: nat, k: nat): (r: nat)
    requires at + k <= |buf|
    ensures r < Pow256(k)
  {
    FromLeBound(buf[at..at + k]);
    FromLe(buf[at..at + k])
  }

  function Decode(buf: seq<u8>): Result<(Header, seq<u8>), HeaderError> {
    if |buf| < HEADER_LEN then Err(TooShort)
    else if buf[0] != STREAM_VIDEO && buf[0] != STREAM_AUDIO then Err(UnknownStream(buf[0]))
    else
      Pow256Values();
      Ok((Header(buf[0], buf[1], FieldLe(buf, 2, 2), FieldLe(buf, 4, 2), FieldLe(buf, 8, 4), FieldLe(buf, 12, 8)),
          buf[HEADER_LEN..]))
  }

  /** Decoding undoes encoding, and leaves the payload that followed. */
  lemma DecodeEncode(h: Header, payload: seq<u8>)
    requires h.stream == STREAM_VIDEO || h.stream == STREAM_AUDIO
    ensures Decode(HeaderBytes(h) + payload) == Ok((h, payload))
  {
    Pow256Values();
    var b := HeaderBytes(h) + payload;
    LeRoundTrip(h.fragmentIndex, 2);
    LeRoundTrip(h.fragmentCount, 2);
    LeRoundTrip(h.frameNumber, 4);
    LeRoundTrip(h.timestampUs, 8);
    assert b[2..4] == Le(h.fragmentIndex, 2);
    assert b[4..6] == Le(h.fragmentCount, 2);
    assert b[8..12] == Le(h.frameNumber, 4);
    assert b[12..20] == Le(h.timestampUs, 8);
    assert b[20..] == payload;
  }

  lemma SplitHeader(buf: seq<u8>)
    requires |buf| >= HEADER_LEN
    ensures buf[6 := 0][7 := 0]
         == [buf[0], buf[1]] + buf[2..4] + buf[4..6] + [0, 0] + buf[8..12] + buf[12..20] + buf[HEADER_LEN..]
  {
  }

  /** Encoding undoes decoding up to the two reserved bytes, and decoding fails
      exactly on a short datagram or an unknown stream. */
  lemma EncodeDecode(buf: seq<u8>)
    ensures Decode(buf).Ok? <==> |buf| >= HEADER_LEN && buf[0] <= STREAM_AUDIO
    ensures Decode(buf).Ok? ==>
      var (h, payload) := Decode(buf).value;
      HeaderBytes(h) + payload == buf[6 := 0][7 := 0]
  {
    if |buf| >= HEADER_LEN {
      SplitHeader(buf);
      LeOfFromLe(buf[2..4]);
      LeOfFromLe(buf[4..6]);
      LeOfFromLe(buf[8..12]);
      LeOfFromLe(buf[12..20]);
    }
  }

  // ---- packetizer -------------------------------------------------------

  /** What the sender hands over for one frame. */
  datatype SourceFrame = SourceFrame(
    stream: u8,
    keyframe: bool,
    timestampUs: u64,
    data: seq<u8>,
    maxDatagram: nat)

  /** Payload bytes per datagram: never zero, even below the header size. */
  function Budget(maxDatagram: nat): (r: nat)
    ensures r > 0
  {
    Max(SatSub(maxDatagram, HEADER_LEN), 1)
  }

  function Payloads(f: SourceFrame): seq<seq<u8>> { Chunks(f.data, Budget(f.maxDatagram)) }

  /** Within the packetizer's own assertion on the fragment count. */
  predicate Fits(f: SourceFrame) { |Payloads(f)| <= MAX_FRAGMENTS }

  function FragmentHeader(n: u32, f: SourceFrame, i: nat): Header
    requires Fits(f) && i < |Payloads(f)|
  {
    var count := |Payloads(f)|;
    Header(f.stream,
           (if f.keyframe then FLAG_KEYFRAME else 0) + (if i + 1 == count then FLAG_END_OF_FRAME else 0),
           i, count, n, f.timestampUs)
  }

  function Fragment(n: u32, f: SourceFrame, i: nat): seq<u8>
    requires Fits(f) && i < |Payloads(f)|
  {
    HeaderBytes(FragmentHeader(n, f, i)) + Payloads(f)[i]
  }

  /** The datagrams of frame `n`. */
  function Fragments(n: u32, f: SourceFrame): seq<seq<u8>>
    requires Fits(f)
  {
    seq(|Payloads(f)|, i requires 0 <= i < |Payloads(f)| => Fragment(n, f, i))
  }

  class Packetizer {
    var nextFrame: u32

    constructor ()
      ensures nextFrame == 0
    {
      nextFrame := 0;
    }

    function LastFrameNumber(): (r: u32)
      reads this
      ensures Next32(r) == nextFrame
    {
      (nextFrame - 1) % 0x1_0000_0000
    }

    method Packetize(f: SourceFrame) returns (out: seq<seq<u8>>)
      requires Fits(f)
      modifies this
      ensures out == Fragments(old(nextFrame), f)
      ensures nextFrame == if f.data == [] then old(nextFrame) else Next32(old(nextFrame))
      ensures f.data != [] ==> LastFrameNumber() == old(nextFrame)
    {
      ChunksShape(f.data, Budget(f.maxDatagram));
      out := [];
      if f.data == [] { return; }
      var budget := Budget(f.maxDatagram);
      var frameNumber := nextFrame;
      nextFrame := Next32(nextFrame);
      var chunks := Chunks(f.data, budget);
      var count := |chunks|;
      for i := 0 to count
        invariant |out| == i && nextFrame == Next32(frameNumber)
        invariant forall k :: 0 <= k < i ==> out[k] == Fragment(frameNumber, f, k)
      {
        var flags := 0;
        if f.keyframe { flags := flags + FLAG_KEYFRAME; }
        if i + 1 == count { flags := flags + FLAG_END_OF_FRAME; }
        var h := Header(f.stream, flags, i, count, frameNumber, f.timestampUs);
        var hdr := new u8[HEADER_LEN];
        Encode(h, hdr);
        out := out + [hdr[..] + chunks[i]];
      }
    }
  }

  /** What a datagram of frame `n` decodes to; a datagram is never larger than
      asked for unless the limit leaves no room for a payload. */
  lemma FragmentDecodes(n: u32, f: SourceFrame, i: nat)
    requires Fits(f) && i < |Payloads(f)| && f.stream <= STREAM_AUDIO
    ensures Decode(Fragment(n, f, i)) == Ok((FragmentHeader(n, f, i), Payloads(f)[i]))
    ensures FragmentHeader(n, f, i).IsKeyframe() == f.keyframe
    ensures FragmentHeader(n, f, i).IsEnd() == (i + 1 == |Payloads(f)|)
    ensures |Fragment(n, f, i)| <= Max(f.maxDatagram, HEADER_LEN + 1)
  {
    DecodeEncode(FragmentHeader(n, f, i), Payloads(f)[i]);
    ChunksShape(f.data, Budget(f.maxDatagram));
  }
}
