/** MPEG-TS demultiplexing: access units out of 188-byte transport packets
    (ISO/IEC 13818-1, sections 2.4.3.2 to 2.4.3.7). */
module Demux {
  import opened Common
  import opened Rtp

  const SYNC: u8 := 0x47
  const STREAM_TYPE_H264: u8 := 0x1b
  const STREAM_TYPE_LPCM: u8 := 0x83

  datatype AccessUnit = AccessUnit(data: seq<u8>, ptsUs: Option<nat>)
  datatype Unit = Video(unit: AccessUnit) | Audio(unit: AccessUnit)

  /** The parts of a transport packet the demux looks at. */
  datatype TsPacket = TsPacket(pid: u16, start: bool, cc: nat, payload: seq<u8>)

  function Pid(hi: u8, lo: u8): u16 { hi % 32 * 256 + lo }
  function Len12(hi: u8, lo: u8): nat { hi % 16 * 256 + lo }
  function Len16(hi: u8, lo: u8): nat { hi * 256 + lo }

  /** `None` for anything without a readable payload. */
  function ReadPacket(packet: seq<u8>): Option<TsPacket> {
    if |packet| != TS_PACKET_LEN || packet[0] != SYNC then None
    else if packet[3] / 16 % 2 == 0 then None
    else
      var adaptation: nat := packet[4];
      var off := if packet[3] / 32 % 2 == 1 then 5 + adaptation else 4;
      if off >= TS_PACKET_LEN then None
      else Some(TsPacket(Pid(packet[1], packet[2]), packet[1] / 64 % 2 == 1, packet[3] % 16, packet[off..]))
  }

  // ---- PES --------------------------------------------------------------

  datatype Pes = Pes(ptsUs: Option<nat>, payloadLen: Option<nat>, body: seq<u8>)

  /** 33 bits of 90 kHz clock spread over five bytes, in microseconds. */
  function PtsUs(b: seq<int>): nat
    requires |b| == 5 && forall i :: 0 <= i < 5 ==> 0 <= b[i] < 0x100
  {
    var ticks: int := b[0] / 2 % 8 * 0x4000_0000 + b[1] * 0x40_0000 + b[2] / 2 % 128 * 0x8000 + b[3] * 128 + b[4] / 2;
    ticks * 1_000_000 / 90_000
  }

  function ParsePes(p: seq<u8>): Option<Pes> {
    if |p| < 9 || p[0] != 0 || p[1] != 0 || p[2] != 1 then None
    else
      var packetLen := Len16(p[4], p[5]);
      var headerLen: nat := p[8];
      if |p| < 9 + headerLen then None
      else Some(Pes(
        if p[7] / 128 % 2 == 1 && headerLen >= 5 then Some(PtsUs(p[9..14])) else None,
        if packetLen != 0 && packetLen >= 3 + headerLen then Some(packetLen - (3 + headerLen)) else None,
        p[9 + headerLen..]))
  }

  // ---- one elementary stream --------------------------------------------

  datatype Assembly = Assembly(data: seq<u8>, ptsUs: Option<nat>, damaged: bool, open: bool, expected: Option<nat>)

  const IDLE := Assembly([], None, false, false, None)

  /** The first `want` bytes, when a length was declared. */
  function Cut(s: seq<u8>, want: Option<nat>): seq<u8> {
    if want.Some? && want.value < |s| then s[..want.value] else s
  }

  function Append(a: Assembly, bytes: seq<u8>): Assembly {
    var room := if a.expected.Some? then Min(SatSub(a.expected.value, |a.data|), |bytes|) else |bytes|;
    a.(data := a.data + bytes[..room])
  }

  predicate Complete(a: Assembly) { a.expected.Some? && |a.data| >= a.expected.value }

  /** A new PES: what came before goes out if it is intact. */
  function Open(a: Assembly, head: Option<Pes>): (Assembly, seq<AccessUnit>) {
    var before := if a.open && !a.damaged && a.data != [] then [AccessUnit(a.data, a.ptsUs)] else [];
    match head
    case Some(pes) => (Append(Assembly([], pes.ptsUs, false, true, pes.payloadLen), pes.body), before)
    case None => (Assembly([], a.ptsUs, true, false, None), before)
  }

  /** A unit of declared length goes out the moment its bytes are there. */
  function Close(a: Assembly): (Assembly, seq<AccessUnit>) {
    if a.open && Complete(a) && !a.damaged
    then (a.(data := [], open := false, expected := None), [AccessUnit(a.data, a.ptsUs)])
    else (a, [])
  }

  /** One payload of the stream; `head` is what it reads as when it starts a PES. */
  function Feed(a: Assembly, start: bool, head: Option<Pes>, payload: seq<u8>): (Assembly, seq<AccessUnit>) {
    var (begun, before) := if start then Open(a, head) else (if a.open then Append(a, payload) else a, []);
    var (closed, now) := Close(begun);
    (closed, before + now)
  }

  // ---- the whole demultiplexer ------------------------------------------

  datatype State = State(
    pmtPid: Option<u16>,
    videoPid: Option<u16>,
    audioPid: Option<u16>,
    video: Assembly,
    audio: Assembly,
    lastCc: map<u16, nat>,
    continuityErrors: nat)

  const FRESH := State(None, None, None, IDLE, IDLE, map[], 0)

  /** The section a payload starts, past its pointer field. */
  function Section(payload: seq<u8>, start: bool): Option<seq<u8>> {
    if !start || payload == [] || 1 + payload[0] > |payload| then None else Some(payload[1 + payload[0]..])
  }

  function ReadPat(d: State, payload: seq<u8>, start: bool): State {
    match Section(payload, start)
    case None => d
    case Some(s) =>
      if |s| < 12 || s[0] != 0 || Pid(s[10], s[11]) == 0 then d else d.(pmtPid := Some(Pid(s[10], s[11])))
  }

  /** The stream entries from `i`; a later entry of a kind overrides an earlier. */
  function ScanPmt(d: State, s: seq<u8>, i: nat, end: nat): State
    requires end <= |s|
    decreases end - i
  {
    if i + 5 > end then d
    else
      var pid := Pid(s[i + 1], s[i + 2]);
      var d' := if s[i] == STREAM_TYPE_H264 then d.(videoPid := Some(pid))
                else if s[i] == STREAM_TYPE_LPCM then d.(audioPid := Some(pid)) else d;
      ScanPmt(d', s, i + 5 + Len12(s[i + 3], s[i + 4]), end)
  }

  function ReadPmt(d: State, payload: seq<u8>, start: bool): State {
    match Section(payload, start)
    case None => d
    case Some(s) =>
      if |s| < 12 || s[0] != 2 then d
      else
        var sectionLen := Len12(s[1], s[2]) + 3;
        if sectionLen < 16 then d
        else ScanPmt(d, s, 12 + Len12(s[10], s[11]), Min(sectionLen - 4, |s|))
  }

  predicate Broken(lastCc: map<u16, nat>, t: TsPacket) { t.pid in lastCc && t.cc != (lastCc[t.pid] + 1) % 16 }

  /** Continuity: a jump damages whatever is being assembled on that PID. */
  function Noted(d: State, t: TsPacket): State {
    var d' := d.(lastCc := d.lastCc[t.pid := t.cc]);
    if !Broken(d.lastCc, t) then d'
    else
      var d2 := d'.(continuityErrors := d.continuityErrors + 1);
      if d.videoPid == Some(t.pid) then d2.(video := d.video.(damaged := true))
      else if d.audioPid == Some(t.pid) then d2.(audio := d.audio.(damaged := true))
      else d2
  }

  function AsVideo(us: seq<AccessUnit>): seq<Unit> { seq(|us|, i requires 0 <= i < |us| => Video(us[i])) }
  function AsAudio(us: seq<AccessUnit>): seq<Unit> { seq(|us|, i requires 0 <= i < |us| => Audio(us[i])) }

  function Dispatch(d: State, t: TsPacket): (State, seq<Unit>) {
    if t.pid == 0 then (ReadPat(d, t.payload, t.start), [])
    else if d.pmtPid == Some(t.pid) then (ReadPmt(d, t.payload, t.start), [])
    else if d.videoPid == Some(t.pid) then
      var (a, us) := Feed(d.video, t.start, ParsePes(t.payload), t.payload); (d.(video := a), AsVideo(us))
    else if d.audioPid == Some(t.pid) then
      var (a, us) := Feed(d.audio, t.start, ParsePes(t.payload), t.payload); (d.(audio := a), AsAudio(us))
    else (d, [])
  }

  function AfterPush(d: State, packet: seq<u8>): (State, seq<Unit>) {
    match ReadPacket(packet)
    case None => (d, [])
    case Some(t) => Dispatch(Noted(d, t), t)
  }

  class Demultiplexer {
    var pmtPid: Option<u16>
    var videoPid: Option<u16>
    var audioPid: Option<u16>
    var video: Assembly
    var audio: Assembly
    var lastCc: map<u16, nat>
    var continuityErrors: nat

    ghost function Value(): State
      reads this
    {
      State(pmtPid, videoPid, audioPid, video, audio, lastCc, continuityErrors)
    }

    constructor ()
      ensures Value() == FRESH
    {
      pmtPid, videoPid, audioPid := None, None, None;
      video, audio, lastCc, continuityErrors := IDLE, IDLE, map[], 0;
    }

    method Push(packet: seq<u8>) returns (out: seq<Unit>)
      modifies this
      ensures (Value(), out) == AfterPush(old(Value()), packet)
    {
      out := [];
      var read := ReadPacket(packet);
      if read.None? { return; }
      var t := read.value;
      var broken := t.pid in lastCc && t.cc != (lastCc[t.pid] + 1) % 16;
      lastCc := lastCc[t.pid := t.cc];
      if broken {
        continuityErrors := continuityErrors + 1;
        if videoPid == Some(t.pid) {
          video := video.(damaged := true);
        } else if audioPid == Some(t.pid) {
          audio := audio.(damaged := true);
        }
      }
      assert Value() == Noted(old(Value()), t);
      if t.pid == 0 {
        ReadPatSection(t.payload, t.start);
      } else if pmtPid == Some(t.pid) {
        ReadPmtSection(t.payload, t.start);
      } else if videoPid == Some(t.pid) {
        var (a, us) := Feed(video, t.start, ParsePes(t.payload), t.payload);
        video := a;
        out := AsVideo(us);
      } else if audioPid == Some(t.pid) {
        var (a, us) := Feed(audio, t.start, ParsePes(t.payload), t.payload);
        audio := a;
        out := AsAudio(us);
      }
    }

    method ReadPatSection(payload: seq<u8>, start: bool)
      modifies this
      ensures Value() == ReadPat(old(Value()), payload, start)
    {
      if !start || payload == [] { return; }
      var ptr := payload[0];
      if 1 + ptr > |payload| { return; }
      var s := payload[1 + ptr..];
      if |s| < 12 || s[0] != 0 { return; }
      var pid := Pid(s[10], s[11]);
      if pid != 0 { pmtPid := Some(pid); }
    }

    method ReadPmtSection(payload: seq<u8>, start: bool)
      modifies this
      ensures Value() == ReadPmt(old(Value()), payload, start)
    {
      if !start || payload == [] { return; }
      var ptr := payload[0];
      if 1 + ptr > |payload| { return; }
      var s := payload[1 + ptr..];
      if |s| < 12 || s[0] != 2 { return; }
      var sectionLen := Len12(s[1], s[2]) + 3;
      if sectionLen < 16 { return; }
      var i := 12 + Len12(s[10], s[11]);
      var end := Min(sectionLen - 4, |s|);
      ghost var from := i;
      while i + 5 <= end
        invariant 0 <= i && 0 <= end <= |s|
        invariant ScanPmt(Value(), s, i, end) == ScanPmt(old(Value()), s, from, end)
        decreases end - i
      {
        var pid := Pid(s[i + 1], s[i + 2]);
        if s[i] == STREAM_TYPE_H264 {
          videoPid := Some(pid);
        } else if s[i] == STREAM_TYPE_LPCM {
          audioPid := Some(pid);
        }
        i := i + 5 + Len12(s[i + 3], s[i + 4]);
      }
    }
  }
}
