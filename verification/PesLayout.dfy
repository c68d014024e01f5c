/** PES packets and transport packets as ISO/IEC 13818-1 lays them out (sections 2.4.3.2,
    2.4.3.4 and 2.4.3.6), against what the demultiplexer reads. */
module PesLayout {
  import opened Common
  import opened Rtp
  import opened Demux
  import opened DemuxRefinement

  // ---- the clock --------------------------------------------------------

  const TICKS: nat := 0x2_0000_0000

  /** 33 bits of 90 kHz clock, with four bits in front and a marker behind each part. */
  datatype Clock = Clock(prefix: nat, ticks: nat, m1: nat, m2: nat, m3: nat)

  predicate ClockOk(c: Clock) { c.prefix < 16 && c.ticks < TICKS && c.m1 < 2 && c.m2 < 2 && c.m3 < 2 }

  function ClockBytes(c: Clock): (b: seq<u8>)
    requires ClockOk(c)
    ensures |b| == 5
  {
    [c.prefix * 16 + c.ticks / 0x4000_0000 * 2 + c.m1,
     c.ticks / 0x40_0000 % 256,
     c.ticks / 0x8000 % 128 * 2 + c.m2,
     c.ticks / 0x80 % 256,
     c.ticks % 128 * 2 + c.m3]
  }

  lemma TicksSplit(t: nat)
    requires t < TICKS
    ensures t / 0x4000_0000 < 8
    ensures t == t / 0x4000_0000 * 0x4000_0000 + t / 0x40_0000 % 256 * 0x40_0000 + t / 0x8000 % 128 * 0x8000
                 + t / 0x80 % 256 * 0x80 + t % 128
  {
    var a := t / 0x80;
    var b := a / 256;
    var c := b / 128;
    var d := c / 256;
    assert t / 0x8000 == b && t / 0x40_0000 == c && t / 0x4000_0000 == d;
    assert t == a * 0x80 + t % 0x80 && a == b * 256 + a % 256 && b == c * 128 + b % 128 && c == d * 256 + c % 256;
  }

  /** The five bytes are read as the clock they were written from, in microseconds. */
  lemma ClockReads(c: Clock)
    requires ClockOk(c)
    ensures PtsUs(ClockBytes(c)) == c.ticks * 1_000_000 / 90_000
  {
    hide PtsUs, ClockBytes;
    var t := c.ticks;
    ClockParts(c);
    TicksSplit(t);
    PtsIs(ClockBytes(c), t / 0x4000_0000, t / 0x40_0000 % 256, t / 0x8000 % 128, t / 0x80 % 256, t % 128);
  }

  lemma ClockParts(c: Clock)
    requires ClockOk(c)
    ensures var b := ClockBytes(c);
      && b[0] / 2 % 8 == c.ticks / 0x4000_0000 && b[1] == c.ticks / 0x40_0000 % 256
      && b[2] / 2 % 128 == c.ticks / 0x8000 % 128 && b[3] == c.ticks / 0x80 % 256 && b[4] / 2 == c.ticks % 128
  {
    ByteHolds(c.prefix, c.ticks / 0x4000_0000, c.m1);
    PairHolds(c.ticks / 0x8000 % 128, c.m2);
    PairHolds(c.ticks % 128, c.m3);
  }

  lemma PtsIs(b: seq<u8>, d: nat, c: nat, e: nat, f: nat, g: nat)
    requires |b| == 5 && b[0] / 2 % 8 == d && b[1] == c && b[2] / 2 % 128 == e && b[3] == f && b[4] / 2 == g
    ensures PtsUs(b) == (d * 0x4000_0000 + c * 0x40_0000 + e * 0x8000 + f * 0x80 + g) * 1_000_000 / 90_000
  {
  }

  lemma ByteHolds(prefix: nat, top: nat, m: nat)
    requires prefix < 16 && top < 8 && m < 2
    ensures (prefix * 16 + top * 2 + m) / 2 % 8 == top
  {
  }

  lemma PairHolds(x: nat, m: nat)
    requires x < 128 && m < 2
    ensures (x * 2 + m) / 2 == x && (x * 2 + m) / 2 % 128 == x
  {
  }

  // ---- the PES header ---------------------------------------------------

  /** A PES header: its stream, the length it declares for everything behind the length
      field, its two flag bytes, its clock, and whatever else the header holds: further
      fields and stuffing. */
  datatype PesHeader = PesHeader(
    stream: u8, length: u16, first: u8, flags: u8, clock: Option<Clock>, other: seq<u8>)

  function HeaderData(h: PesHeader): seq<u8>
    requires h.clock.Some? ==> ClockOk(h.clock.value)
  {
    (if h.clock.Some? then ClockBytes(h.clock.value) else []) + h.other
  }

  predicate PesOk(h: PesHeader) {
    && (h.clock.Some? ==> ClockOk(h.clock.value) && h.flags >= 0x80)
    && |HeaderData(h)| < 0x100
    && (h.clock.None? ==> h.flags < 0x80 || |h.other| < 5)
  }

  function PesBytes(h: PesHeader): (s: seq<u8>)
    requires PesOk(h)
    ensures |s| == 9 + |HeaderData(h)|
  {
    [0, 0, 1, h.stream, h.length / 256, h.length % 256, h.first, h.flags, |HeaderData(h)|] + HeaderData(h)
  }

  function ClockUs(h: PesHeader): Option<nat> {
    if h.clock.Some? then Some(h.clock.value.ticks * 1_000_000 / 90_000) else None
  }

  /** The payload length a header declares: what its length leaves for it, and none when it
      is zero or too short for the header itself. */
  function Declared(h: PesHeader): Option<nat>
    requires PesOk(h)
  {
    if h.length < 3 + |HeaderData(h)| then None else Some(h.length - 3 - |HeaderData(h)|)
  }

  lemma PesFields(h: PesHeader, body: seq<u8>)
    requires PesOk(h)
    ensures var p := PesBytes(h) + body;
      && |p| >= 9 + |HeaderData(h)| && p[0] == 0 && p[1] == 0 && p[2] == 1
      && Len16(p[4], p[5]) == h.length && p[7] == h.flags && p[8] == |HeaderData(h)|
      && p[9 + |HeaderData(h)|..] == body
      && (h.clock.Some? ==> |HeaderData(h)| >= 5 && p[9..14] == ClockBytes(h.clock.value))
  {
    hide ClockBytes;
    var p, data := PesBytes(h) + body, HeaderData(h);
    assert p[9..9 + |data|] == data;
    if h.clock.Some? { assert p[9..14] == data[..5] == ClockBytes(h.clock.value); }
  }

  /** Any header so laid out is read back in front of any body: the clock in microseconds,
      the payload length, and the body past further fields and stuffing of any length. */
  lemma PesReads(h: PesHeader, body: seq<u8>)
    requires PesOk(h)
    ensures ParsePes(PesBytes(h) + body) == Some(Pes(ClockUs(h), Declared(h), body))
  {
    hide PtsUs, PesBytes, ClockBytes;
    PesFields(h, body);
    if h.clock.Some? { ClockReads(h.clock.value); }
    assert h.flags / 128 % 2 == 1 <==> h.flags >= 0x80;
  }

  /** The clock five bytes hold. */
  function ClockOf(b: seq<u8>): (c: Clock)
    requires |b| == 5
    ensures ClockOk(c)
  {
    var d: nat, c: nat, e: nat, f: nat, g: nat := b[0] / 2 % 8, b[1], b[2] / 2, b[3], b[4] / 2;
    Clock(b[0] / 16, d * 0x4000_0000 + c * 0x40_0000 + e * 0x8000 + f * 0x80 + g, b[0] % 2, b[2] % 2, b[4] % 2)
  }

  lemma ClockIs(b: seq<u8>)
    requires |b| == 5
    ensures ClockBytes(ClockOf(b)) == b
  {
    hide ClockBytes;
    var d: nat, c: nat, e: nat, f: nat, g: nat := b[0] / 2 % 8, b[1], b[2] / 2, b[3], b[4] / 2;
    TicksParts(d, c, e, f, g);
    TopByte(b[0]);
    LowByte(b[2]);
    LowByte(b[4]);
    WrittenAs(ClockOf(b), d, c, e, f, g);
  }

  lemma WrittenAs(k: Clock, d: nat, c: nat, e: nat, f: nat, g: nat)
    requires ClockOk(k) && d < 8 && c < 256 && e < 128 && f < 256 && g < 128
    requires k.ticks / 0x4000_0000 == d && k.ticks / 0x40_0000 % 256 == c && k.ticks / 0x8000 % 128 == e
    requires k.ticks / 0x80 % 256 == f && k.ticks % 128 == g
    ensures ClockBytes(k) == [k.prefix * 16 + d * 2 + k.m1, c, e * 2 + k.m2, f, g * 2 + k.m3]
  {
  }

  lemma TopByte(b: u8)
    ensures b == b / 16 * 16 + b / 2 % 8 * 2 + b % 2
  {
  }

  lemma LowByte(b: u8)
    ensures b == b / 2 * 2 + b % 2
  {
  }

  lemma TicksParts(d: nat, c: nat, e: nat, f: nat, g: nat)
    requires d < 8 && c < 256 && e < 128 && f < 256 && g < 128
    ensures var t := d * 0x4000_0000 + c * 0x40_0000 + e * 0x8000 + f * 0x80 + g;
      t / 0x4000_0000 == d && t / 0x40_0000 % 256 == c && t / 0x8000 % 128 == e && t / 0x80 % 256 == f && t % 128 == g
  {
    var t := d * 0x4000_0000 + c * 0x40_0000 + e * 0x8000 + f * 0x80 + g;
    assert t / 0x40_0000 == d * 256 + c;
    assert t / 0x8000 == (d * 256 + c) * 128 + e;
    assert t / 0x80 == ((d * 256 + c) * 128 + e) * 256 + f;
  }

  /** The header bytes that parse have. */
  function HeaderOf(p: seq<u8>): PesHeader
    requires ParsePes(p).Some?
  {
    var n: nat := p[8];
    var clocked := p[7] >= 0x80 && n >= 5;
    PesHeader(p[3], Len16(p[4], p[5]), p[6], p[7], if clocked then Some(ClockOf(p[9..14])) else None,
              if clocked then p[14..9 + n] else p[9..9 + n])
  }

  lemma HeaderIs(p: seq<u8>)
    requires ParsePes(p).Some?
    ensures HeaderData(HeaderOf(p)) == p[9..9 + p[8]] && PesOk(HeaderOf(p))
  {
    hide ClockBytes, ClockOf, PtsUs;
    if p[7] >= 0x80 && p[8] >= 5 {
      ClockIs(p[9..14]);
      assert p[9..14] + p[14..9 + p[8]] == p[9..9 + p[8]];
    } else {
      assert [] + p[9..9 + p[8]] == p[9..9 + p[8]];
    }
  }

  /** And nothing else parses: bytes that do are such a header and the body handed on. */
  lemma PesIsLayout(p: seq<u8>)
    requires ParsePes(p).Some?
    ensures PesOk(HeaderOf(p)) && PesBytes(HeaderOf(p)) + ParsePes(p).value.body == p
  {
    hide ParsePes, HeaderData, PesOk, HeaderOf, PesBytes;
    HeaderIs(p);
    BodyIs(p);
    FixedIs(p);
    var n := p[8];
    assert p == p[..9] + p[9..9 + n] + p[9 + n..];
  }

  lemma BodyIs(p: seq<u8>)
    requires ParsePes(p).Some?
    ensures |p| >= 9 && var n: nat := p[8]; |p| >= 9 + n && ParsePes(p).value.body == p[9 + n..]
  {
    hide PtsUs;
  }

  lemma FixedIs(p: seq<u8>)
    requires ParsePes(p).Some? && PesOk(HeaderOf(p)) && |HeaderData(HeaderOf(p))| == p[8]
    ensures PesBytes(HeaderOf(p)) == p[..9] + HeaderData(HeaderOf(p))
  {
    hide PtsUs, HeaderData, PesOk, ClockOf;
    LengthIs(p[4], p[5]);
  }

  lemma LengthIs(hi: u8, lo: u8)
    ensures Len16(hi, lo) / 256 == hi && Len16(hi, lo) % 256 == lo
  {
  }

  // ---- the transport packet ---------------------------------------------

  /** A transport packet with a payload: the bits in front of the PID, the counter, an
      adaptation field of any length, and the payload. */
  datatype Carrier = Carrier(
    error: bool, start: bool, priority: bool, pid: u16, scrambling: nat, cc: nat, adaptation: Option<seq<u8>>,
    payload: seq<u8>)

  function FieldBytes(c: Carrier): seq<u8>
    requires c.adaptation.Some? ==> |c.adaptation.value| < 0x100
  {
    if c.adaptation.Some? then [|c.adaptation.value|] + c.adaptation.value else []
  }

  predicate CarrierOk(c: Carrier) {
    && c.pid < 0x2000 && c.scrambling < 4 && c.cc < 16 && c.payload != []
    && (c.adaptation.Some? ==> |c.adaptation.value| < 0x100)
    && |FieldBytes(c)| + |c.payload| == 184
  }

  function Bit(b: bool): nat { if b then 1 else 0 }

  function PacketBytes(c: Carrier): (s: seq<u8>)
    requires CarrierOk(c)
    ensures |s| == 188
  {
    [0x47, Bit(c.error) * 128 + Bit(c.start) * 64 + Bit(c.priority) * 32 + c.pid / 256, c.pid % 256,
     c.scrambling * 64 + Bit(c.adaptation.Some?) * 32 + 16 + c.cc] + (FieldBytes(c) + c.payload)
  }

  lemma PacketFields(c: Carrier)
    requires CarrierOk(c)
    ensures var p := PacketBytes(c);
      && p[0] == 0x47 && Pid(p[1], p[2]) == c.pid && (p[1] / 64 % 2 == 1 <==> c.start)
      && p[3] / 16 % 2 == 1 && (p[3] / 32 % 2 == 1 <==> c.adaptation.Some?) && p[3] % 16 == c.cc
  {
  }

  /** Any packet so laid out is read back: PID, start, counter and payload, past an
      adaptation field of any length. */
  lemma PacketReads(c: Carrier)
    requires CarrierOk(c)
    ensures ReadPacket(PacketBytes(c)) == Some(TsPacket(c.pid, c.start, c.cc, c.payload))
  {
    hide Pid;
    PacketFields(c);
    var p := PacketBytes(c);
    var n := |FieldBytes(c)|;
    assert p[4..] == FieldBytes(c) + c.payload;
    assert p[4 + n..] == c.payload;
    if c.adaptation.Some? { assert p[4] == FieldBytes(c)[0] == |c.adaptation.value|; }
  }

  /** The carrier a packet is, when it reads. */
  function CarrierOf(p: seq<u8>): Carrier
    requires ReadPacket(p).Some?
  {
    var n: nat := p[4];
    var field := p[3] / 32 % 2 == 1;
    Carrier(p[1] >= 128, p[1] / 64 % 2 == 1, p[1] / 32 % 2 == 1, Pid(p[1], p[2]), p[3] / 64, p[3] % 16,
            if field then Some(p[5..5 + n]) else None, if field then p[5 + n..] else p[4..])
  }

  lemma PidParts(b1: u8, b2: u8)
    ensures b1 == Bit(b1 >= 128) * 128 + Bit(b1 / 64 % 2 == 1) * 64 + Bit(b1 / 32 % 2 == 1) * 32 + Pid(b1, b2) / 256
    ensures Pid(b1, b2) % 256 == b2 && Pid(b1, b2) < 0x2000
  {
    assert Pid(b1, b2) / 256 == b1 % 32;
  }

  lemma ControlParts(b3: u8)
    requires b3 / 16 % 2 == 1
    ensures b3 == b3 / 64 * 64 + Bit(b3 / 32 % 2 == 1) * 32 + 16 + b3 % 16
  {
  }

  /** And nothing else reads. */
  lemma PacketIsLayout(p: seq<u8>)
    requires ReadPacket(p).Some?
    ensures CarrierOk(CarrierOf(p)) && PacketBytes(CarrierOf(p)) == p
  {
    hide ReadPacket, CarrierOf, Pid, PacketBytes;
    CarrierFits(p);
    FrontIs(p);
    assert p == p[..4] + p[4..];
  }

  lemma CarrierFits(p: seq<u8>)
    requires ReadPacket(p).Some?
    ensures |p| == 188 && CarrierOk(CarrierOf(p)) && FieldBytes(CarrierOf(p)) + CarrierOf(p).payload == p[4..]
  {
    hide Pid;
    PidParts(p[1], p[2]);
    var n: nat := p[4];
    if p[3] / 32 % 2 == 1 {
      assert [p[4]] + p[5..5 + n] == p[4..5 + n];
      assert p[4..5 + n] + p[5 + n..] == p[4..];
    }
  }

  lemma FrontIs(p: seq<u8>)
    requires ReadPacket(p).Some? && CarrierOk(CarrierOf(p))
    ensures PacketBytes(CarrierOf(p)) == p[..4] + (FieldBytes(CarrierOf(p)) + CarrierOf(p).payload)
  {
    hide Pid, FieldBytes, CarrierOk;
    PidParts(p[1], p[2]);
    ControlParts(p[3]);
  }
}
