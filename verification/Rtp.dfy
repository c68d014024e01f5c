/** RTP packets: the sink's parser and the source's packetizer (RFC 3550,
    section 5.1; MPEG-TS payload as in section 2 of RFC 2250). */
module Rtp {
  import opened Common

  const PAYLOAD_TYPE: u8 := 33
  const TS_PACKET_LEN: nat := 188
  const PACKETS_PER_DATAGRAM: nat := 7
  const RTP_HEADER_LEN: nat := 12

  datatype Packet = Packet(sequence: u16, timestamp: u32, payloadType: u8, payload: seq<u8>)

  function FieldBe(buf: seq<u8>, at: nat, k: nat): (r: nat)
    requires at + k <= |buf|
    ensures r < Pow256(k)
  {
    FromBeBound(buf[at..at + k]);
    FromBe(buf[at..at + k])
  }

  /** Where the payload starts, when the header fits. */
  function PayloadOffset(buf: seq<u8>): Option<nat>
    requires |buf| >= RTP_HEADER_LEN
  {
    var fixed := RTP_HEADER_LEN + buf[0] % 16 * 4;
    if buf[0] / 16 % 2 == 0 then Some(fixed)
    else if |buf| < fixed + 4 then None
    else Some(fixed + 4 + FieldBe(buf, fixed + 2, 2) * 4)
  }

  function Parse(buf: seq<u8>): Option<Packet> {
    if |buf| < RTP_HEADER_LEN || buf[0] / 64 != 2 then None
    else
      match PayloadOffset(buf)
      case None => None
      case Some(off) =>
        Pow256Values();
        if |buf| < off then None
        else Some(Packet(FieldBe(buf, 2, 2), FieldBe(buf, 4, 4), buf[1] % 128, buf[off..]))
  }

  // ---- the source's packetizer ------------------------------------------

  function Datagram(sequence: u16, timestamp: u32, ssrc: u32, group: seq<u8>): seq<u8> {
    [0x80, PAYLOAD_TYPE] + Be(sequence, 2) + Be(timestamp, 4) + Be(ssrc, 4) + group
  }

  function SequenceAt(first: u16, i: nat): u16 { (first + i) % 0x1_0000 }

  lemma SequenceNext(first: u16, i: nat)
    ensures Next16(SequenceAt(first, i)) == SequenceAt(first, i + 1)
  {
  }

  function Groups(ts: seq<u8>): seq<seq<u8>> { Chunks(ts, PACKETS_PER_DATAGRAM * TS_PACKET_LEN) }

  class Packetizer {
    const ssrc: u32
    var sequence: u16

    constructor (ssrc: u32)
      ensures this.ssrc == ssrc && sequence == 0
    {
      this.ssrc, sequence := ssrc, 0;
    }

    method Push(ts: seq<u8>, timestamp: u32) returns (out: seq<seq<u8>>)
      modifies this
      ensures |out| == |Groups(ts)| && sequence == SequenceAt(old(sequence), |out|)
      ensures forall i :: 0 <= i < |out| ==>
                out[i] == Datagram(SequenceAt(old(sequence), i), timestamp, ssrc, Groups(ts)[i])
    {
      out := [];
      var groups := Groups(ts);
      for i := 0 to |groups|
        invariant |out| == i && sequence == SequenceAt(old(sequence), i)
        invariant forall k :: 0 <= k < i ==>
                    out[k] == Datagram(SequenceAt(old(sequence), k), timestamp, ssrc, groups[k])
      {
        out := out + [[0x80, PAYLOAD_TYPE] + Be(sequence, 2) + Be(timestamp, 4) + Be(ssrc, 4) + groups[i]];
        SequenceNext(old(sequence), i);
        sequence := Next16(sequence);
      }
    }
  }

  /** The parser reads back exactly what the packetizer wrote. */
  lemma ParseDatagram(sequence: u16, timestamp: u32, ssrc: u32, group: seq<u8>)
    ensures Parse(Datagram(sequence, timestamp, ssrc, group)) == Some(Packet(sequence, timestamp, PAYLOAD_TYPE, group))
  {
    Pow256Values();
    var d := Datagram(sequence, timestamp, ssrc, group);
    BeRoundTrip(sequence, 2);
    BeRoundTrip(timestamp, 4);
    assert d[2..4] == Be(sequence, 2);
    assert d[4..8] == Be(timestamp, 4);
    assert d[12..] == group;
  }

  function PayloadsOf(ds: seq<seq<u8>>): seq<seq<u8>> {
    seq(|ds|, i requires 0 <= i < |ds| => if Parse(ds[i]).Some? then Parse(ds[i]).value.payload else [])
  }

  /** Transport round trip: parsing the datagrams cut from a transport stream gives
      consecutive sequence numbers across the wrap, one timestamp, and payloads
      that run together to the stream unchanged. */
  lemma TransportRoundTrip(ts: seq<u8>, first: u16, timestamp: u32, ssrc: u32, out: seq<seq<u8>>)
    requires |out| == |Groups(ts)|
    requires forall i :: 0 <= i < |out| ==> out[i] == Datagram(SequenceAt(first, i), timestamp, ssrc, Groups(ts)[i])
    ensures forall i :: 0 <= i < |out| ==>
              Parse(out[i]) == Some(Packet(SequenceAt(first, i), timestamp, PAYLOAD_TYPE, Groups(ts)[i]))
    ensures Concat(PayloadsOf(out)) == ts
  {
    forall i | 0 <= i < |out|
      ensures Parse(out[i]) == Some(Packet(SequenceAt(first, i), timestamp, PAYLOAD_TYPE, Groups(ts)[i]))
    {
      ParseDatagram(SequenceAt(first, i), timestamp, ssrc, Groups(ts)[i]);
    }
    assert PayloadsOf(out) == Groups(ts);
    ChunksConcat(ts, PACKETS_PER_DATAGRAM * TS_PACKET_LEN);
  }

  // ---- the header as RFC 3550 lays it out -------------------------------

  /** The fixed header, the contributing sources and the extension of section 5.1 and
      section 5.3.1: sources and extension words as their bytes. */
  datatype Header = Header(
    padding: bool, sources: seq<u8>, marker: bool, payloadType: u8, sequence: u16, timestamp: u32, ssrc: u32,
    extension: Option<(u16, seq<u8>)>)

  predicate WellFormed(h: Header) {
    && |h.sources| % 4 == 0 && |h.sources| <= 60 && h.payloadType < 128
    && (h.extension.Some? ==> |h.extension.value.1| % 4 == 0 && |h.extension.value.1| / 4 < 0x1_0000)
  }

  function FirstByte(h: Header): (b: u8)
    requires WellFormed(h)
  {
    0x80 + (if h.padding then 0x20 else 0) + (if h.extension.Some? then 0x10 else 0) + |h.sources| / 4
  }

  function SecondByte(h: Header): (b: u8)
    requires WellFormed(h)
  {
    (if h.marker then 0x80 else 0) + h.payloadType
  }

  function ExtensionBytes(h: Header): seq<u8>
    requires WellFormed(h)
  {
    if h.extension.None? then []
    else Be(h.extension.value.0, 2) + Be(|h.extension.value.1| / 4, 2) + h.extension.value.1
  }

  function FixedBytes(h: Header): (s: seq<u8>)
    requires WellFormed(h)
    ensures |s| == RTP_HEADER_LEN
  {
    [FirstByte(h), SecondByte(h)] + Be(h.sequence, 2) + Be(h.timestamp, 4) + Be(h.ssrc, 4)
  }

  function Layout(h: Header): seq<u8>
    requires WellFormed(h)
  {
    FixedBytes(h) + h.sources + ExtensionBytes(h)
  }

  lemma FixedFields(h: Header, rest: seq<u8>)
    requires WellFormed(h)
    ensures var buf := FixedBytes(h) + rest;
      && buf[0] / 64 == 2 && buf[0] % 16 * 4 == |h.sources| && (buf[0] / 16 % 2 == 0 <==> h.extension.None?)
      && buf[1] % 128 == h.payloadType
      && FieldBe(buf, 2, 2) == h.sequence && FieldBe(buf, 4, 4) == h.timestamp
  {
    Pow256Values();
    var buf := FixedBytes(h) + rest;
    BeRoundTrip(h.sequence, 2);
    BeRoundTrip(h.timestamp, 4);
    assert buf[2..4] == Be(h.sequence, 2);
    assert buf[4..8] == Be(h.timestamp, 4);
  }

  lemma ExtensionLength(h: Header, payload: seq<u8>)
    requires WellFormed(h) && h.extension.Some?
    ensures var buf := FixedBytes(h) + (h.sources + ExtensionBytes(h) + payload);
      var fixed := RTP_HEADER_LEN + |h.sources|;
      fixed + 4 <= |buf| && FieldBe(buf, fixed + 2, 2) * 4 == |h.extension.value.1|
  {
    hide FixedBytes, Be, FromBe;
    var buf := FixedBytes(h) + (h.sources + ExtensionBytes(h) + payload);
    var fixed := RTP_HEADER_LEN + |h.sources|;
    var words := |h.extension.value.1| / 4;
    Pow256Values();
    BeRoundTrip(words, 2);
    assert buf[fixed + 2..fixed + 4] == Be(words, 2);
  }

  lemma OffsetOf(h: Header, payload: seq<u8>)
    requires WellFormed(h)
    ensures var buf := FixedBytes(h) + (h.sources + ExtensionBytes(h) + payload);
      PayloadOffset(buf) == Some(|Layout(h)|) && buf[|Layout(h)|..] == payload
  {
    hide FixedBytes, Be, FromBe, WellFormed;
    var rest := h.sources + ExtensionBytes(h) + payload;
    var buf := FixedBytes(h) + rest;
    FixedFields(h, rest);
    if h.extension.Some? { ExtensionLength(h, payload); }
  }

  lemma Regroup(a: seq<u8>, b: seq<u8>, c: seq<u8>, d: seq<u8>)
    ensures (a + b + c) + d == a + (b + c + d)
  {
  }

  /** The parser reads every header RFC 3550 allows, with its sources and extension
      passed over, and hands out what follows it. */
  lemma ParseReadsLayout(h: Header, payload: seq<u8>)
    requires WellFormed(h)
    ensures Parse(Layout(h) + payload) == Some(Packet(h.sequence, h.timestamp, h.payloadType, payload))
  {
    hide PayloadOffset, FieldBe, FixedBytes, ExtensionBytes;
    Regroup(FixedBytes(h), h.sources, ExtensionBytes(h), payload);
    FixedFields(h, h.sources + ExtensionBytes(h) + payload);
    OffsetOf(h, payload);
  }

  lemma FieldIs(buf: seq<u8>, at: nat, k: nat)
    requires at + k <= |buf|
    ensures Be(FieldBe(buf, at, k), k) == buf[at..at + k]
  {
    BeOfFromBe(buf[at..at + k]);
  }

  lemma Sizes(buf: seq<u8>)
    requires Parse(buf).Some?
    ensures RTP_HEADER_LEN + buf[0] % 16 * 4 <= |buf| && PayloadOffset(buf).Some? && PayloadOffset(buf).value <= |buf|
    ensures buf[0] / 16 % 2 == 1 ==>
      var fixed := RTP_HEADER_LEN + buf[0] % 16 * 4;
      && fixed + 4 <= |buf| && fixed + 4 + FieldBe(buf, fixed + 2, 2) * 4 <= |buf|
      && PayloadOffset(buf).value == fixed + 4 + FieldBe(buf, fixed + 2, 2) * 4
  {
    hide FieldBe;
  }

  /** The header a buffer has, when it parses. */
  function HeaderOf(buf: seq<u8>): (h: Header)
    requires Parse(buf).Some?
    ensures WellFormed(h)
  {
    hide FieldBe, Parse, PayloadOffset;
    Pow256Values();
    Sizes(buf);
    var fixed := RTP_HEADER_LEN + buf[0] % 16 * 4;
    Header(
      buf[0] / 32 % 2 == 1, buf[RTP_HEADER_LEN..fixed], buf[1] >= 128, buf[1] % 128,
      FieldBe(buf, 2, 2), FieldBe(buf, 4, 4), FieldBe(buf, 8, 4),
      if buf[0] / 16 % 2 == 0 then None
      else Some((FieldBe(buf, fixed, 2), buf[fixed + 4..fixed + 4 + FieldBe(buf, fixed + 2, 2) * 4])))
  }

  lemma FixedIs(buf: seq<u8>)
    requires Parse(buf).Some?
    ensures FixedBytes(HeaderOf(buf)) == buf[..RTP_HEADER_LEN]
  {
    hide FieldBe, Be;
    FieldIs(buf, 2, 2);
    FieldIs(buf, 4, 4);
    FieldIs(buf, 8, 4);
    BytesIs(buf);
    Slices(buf, 2, 4, 8, 12);
    assert [buf[0], buf[1]] + buf[2..12] == buf[..12];
  }

  lemma BytesIs(buf: seq<u8>)
    requires Parse(buf).Some?
    ensures FirstByte(HeaderOf(buf)) == buf[0] && SecondByte(HeaderOf(buf)) == buf[1]
  {
    hide FieldBe;
    Bits(buf[0]);
  }

  lemma Bits(b: u8)
    requires b / 64 == 2
    ensures b == 0x80 + b / 32 % 2 * 0x20 + b / 16 % 2 * 0x10 + b % 16
  {
  }

  lemma Slices(buf: seq<u8>, a: nat, b: nat, c: nat, d: nat)
    requires a <= b <= c <= d <= |buf|
    ensures buf[a..b] + buf[b..c] + buf[c..d] == buf[a..d] && buf[..a] + buf[a..d] == buf[..d]
  {
  }

  lemma ExtensionParts(buf: seq<u8>)
    requires Parse(buf).Some? && buf[0] / 16 % 2 == 1
    ensures var fixed := RTP_HEADER_LEN + buf[0] % 16 * 4;
      && fixed + 4 <= |buf| && fixed + 4 + FieldBe(buf, fixed + 2, 2) * 4 <= |buf|
      && HeaderOf(buf).extension ==
           Some((FieldBe(buf, fixed, 2), buf[fixed + 4..fixed + 4 + FieldBe(buf, fixed + 2, 2) * 4]))
  {
    hide FieldBe;
  }

  lemma ExtensionIs(buf: seq<u8>)
    requires Parse(buf).Some? && |buf| >= RTP_HEADER_LEN && buf[0] / 16 % 2 == 1
    ensures var fixed := RTP_HEADER_LEN + buf[0] % 16 * 4;
      && fixed + 4 <= |buf| && fixed + 4 + FieldBe(buf, fixed + 2, 2) * 4 <= |buf|
      && ExtensionBytes(HeaderOf(buf)) == buf[fixed..fixed + 4 + FieldBe(buf, fixed + 2, 2) * 4]
  {
    hide Be, FieldBe, Parse, HeaderOf, WellFormed;
    var fixed := RTP_HEADER_LEN + buf[0] % 16 * 4;
    ExtensionParts(buf);
    var words := FieldBe(buf, fixed + 2, 2);
    FieldIs(buf, fixed, 2);
    FieldIs(buf, fixed + 2, 2);
    Quarter(words);
    Slices(buf, fixed, fixed + 2, fixed + 4, fixed + 4 + words * 4);
  }

  lemma Quarter(words: nat)
    ensures words * 4 / 4 == words
  {
  }

  lemma SourcesAre(buf: seq<u8>)
    requires Parse(buf).Some?
    ensures RTP_HEADER_LEN + buf[0] % 16 * 4 <= |buf|
    ensures HeaderOf(buf).sources == buf[RTP_HEADER_LEN..RTP_HEADER_LEN + buf[0] % 16 * 4]
    ensures HeaderOf(buf).extension.Some? <==> buf[0] / 16 % 2 == 1
  {
  }

  lemma NoExtension(h: Header)
    requires WellFormed(h) && h.extension.None?
    ensures ExtensionBytes(h) == []
  {
  }

  lemma OffsetIs(buf: seq<u8>)
    requires Parse(buf).Some?
    ensures |buf| >= RTP_HEADER_LEN && PayloadOffset(buf).Some? && PayloadOffset(buf).value <= |buf|
    ensures Layout(HeaderOf(buf)) == buf[..PayloadOffset(buf).value]
  {
    hide FieldBe, FixedBytes, ExtensionBytes, Parse, HeaderOf, WellFormed;
    Sizes(buf);
    var fixed := RTP_HEADER_LEN + buf[0] % 16 * 4;
    var h := HeaderOf(buf);
    FixedIs(buf);
    SourcesAre(buf);
    assert FixedBytes(h) + h.sources == buf[..fixed];
    if h.extension.Some? { ExtensionIs(buf); } else { NoExtension(h); }
  }

  /** Whatever parses is such a header and a payload, so the parser accepts nothing but
      what RFC 3550 allows. */
  lemma ParseIsLayout(buf: seq<u8>)
    requires Parse(buf).Some?
    ensures Layout(HeaderOf(buf)) + Parse(buf).value.payload == buf
  {
    hide Layout, HeaderOf;
    OffsetIs(buf);
  }
}
