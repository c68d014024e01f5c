/** From the program tables to the streams: a demultiplexer that knows nothing yet, a
    PAT and a PMT as ISO/IEC 13818-1 lays them out (sections 2.4.4.3 and 2.4.4.8), and
    from there on the reference. */
module Tables {
  import opened Common
  import opened Rtp
  import opened Demux
  import opened DemuxRefinement

  // ---- the layout -------------------------------------------------------

  /** A stream of the program: its type, its PID and its descriptors. */
  datatype Entry = Entry(kind: u8, pid: u16, info: seq<u8>)

  predicate IsPid(pid: nat) { 0 < pid < 0x2000 }

  predicate EntryOk(e: Entry) { IsPid(e.pid) && |e.info| < 0x400 }

  predicate AllOk(es: seq<Entry>) { forall i :: 0 <= i < |es| ==> EntryOk(es[i]) }

  function EntryBytes(e: Entry): (s: seq<u8>)
    requires EntryOk(e)
    ensures |s| == 5 + |e.info|
  {
    [e.kind] + Be(0xE000 + e.pid, 2) + Be(0xF000 + |e.info|, 2) + e.info
  }

  function AllBytes(es: seq<Entry>): seq<u8>
    requires AllOk(es)
  {
    if es == [] then [] else EntryBytes(es[0]) + AllBytes(es[1..])
  }

  /** The program map PID of the only program. */
  function PatSection(stream: u16, program: u16, pmtPid: nat, crc: seq<u8>): seq<u8>
    requires IsPid(pmtPid)
  {
    [0x00] + Be(0xB00D, 2) + Be(stream, 2) + [0xC1, 0x00, 0x00] + Be(program, 2) + Be(0xE000 + pmtPid, 2) + crc
  }

  /** The streams of a program, after its clock PID and its own descriptors. */
  datatype Program = Program(number: u16, clockPid: u16, info: seq<u8>, entries: seq<Entry>)

  predicate ProgramOk(p: Program) {
    IsPid(p.clockPid) && |p.info| < 0x400 && AllOk(p.entries) && |p.info| + |AllBytes(p.entries)| <= 1000
  }

  function ProgramBytes(p: Program): seq<u8>
    requires ProgramOk(p)
  {
    Be(p.number, 2) + [0xC1, 0x00, 0x00] + Be(0xE000 + p.clockPid, 2) + Be(0xF000 + |p.info|, 2) + p.info
    + AllBytes(p.entries)
  }

  function PmtSection(p: Program, crc: seq<u8>): seq<u8>
    requires ProgramOk(p) && |crc| == 4
  {
    [0x02] + Be(0xB000 + |ProgramBytes(p)| + 4, 2) + ProgramBytes(p) + crc
  }

  // ---- reading it -------------------------------------------------------

  lemma Be2(n: nat)
    requires n < 0x1_0000
    ensures Be(n, 2) == [n / 256, n % 256]
  {
    assert Be(n, 2) == Be(n / 256, 1) + [n % 256];
    assert Be(n / 256, 1) == [] + [n / 256 % 256];
  }

  lemma PidBack(pid: nat)
    requires pid < 0x2000
    ensures var b := Be(0xE000 + pid, 2); Pid(b[0], b[1]) == pid
  {
    Be2(0xE000 + pid);
  }

  lemma LengthBack(marker: nat, n: nat)
    requires n < 0x1000 && marker % 0x1000 == 0 && marker + n < 0x1_0000
    ensures var b := Be(marker + n, 2); Len12(b[0], b[1]) == n
  {
    Be2(marker + n);
  }

  /** A payload that starts this section. */
  predicate Holds(t: TsPacket, section: seq<u8>) { t.start && [0] + section <= t.payload }

  lemma SectionOf(t: TsPacket, section: seq<u8>)
    requires Holds(t, section)
    ensures Section(t.payload, t.start).Some? && section <= Section(t.payload, t.start).value
  {
    var s := t.payload[1..];
    assert s[..|section|] == ([0] + section)[1..] == section;
  }

  lemma PatRead(d: State, t: TsPacket, stream: u16, program: u16, pmtPid: nat, crc: seq<u8>)
    requires IsPid(pmtPid) && Holds(t, PatSection(stream, program, pmtPid, crc))
    ensures ReadPat(d, t.payload, t.start) == d.(pmtPid := Some(pmtPid))
  {
    hide Be;
    var section := PatSection(stream, program, pmtPid, crc);
    SectionOf(t, section);
    PidBack(pmtPid);
    var s := Section(t.payload, t.start).value;
    assert s[0] == section[0] && s[10] == section[10] == Be(0xE000 + pmtPid, 2)[0];
    assert s[11] == section[11] == Be(0xE000 + pmtPid, 2)[1];
  }

  /** The PID of the last entry of a kind. */
  function LastOf(es: seq<Entry>, kind: u8): Option<u16> {
    if es == [] then None
    else if LastOf(es[1..], kind).Some? then LastOf(es[1..], kind)
    else if es[0].kind == kind then Some(es[0].pid)
    else None
  }

  function Else(a: Option<u16>, b: Option<u16>): Option<u16> { if a.Some? then a else b }

  /** What the entries name replaces what was known. */
  function Named(d: State, es: seq<Entry>): State {
    d.(videoPid := Else(LastOf(es, STREAM_TYPE_H264), d.videoPid),
       audioPid := Else(LastOf(es, STREAM_TYPE_LPCM), d.audioPid))
  }

  lemma EntryRead(s: seq<u8>, i: nat, e: Entry)
    requires EntryOk(e) && i + |EntryBytes(e)| <= |s| && s[i..i + |EntryBytes(e)|] == EntryBytes(e)
    ensures s[i] == e.kind && Pid(s[i + 1], s[i + 2]) == e.pid && Len12(s[i + 3], s[i + 4]) == |e.info|
  {
    hide Be;
    var b := EntryBytes(e);
    PidBack(e.pid);
    LengthBack(0xF000, |e.info|);
    assert s[i] == b[0] && s[i + 1] == b[1] && s[i + 2] == b[2] && s[i + 3] == b[3] && s[i + 4] == b[4];
    assert b[1] == Be(0xE000 + e.pid, 2)[0] && b[2] == Be(0xE000 + e.pid, 2)[1];
    assert b[3] == Be(0xF000 + |e.info|, 2)[0] && b[4] == Be(0xF000 + |e.info|, 2)[1];
  }

  lemma {:induction false} EntriesRead(d: State, s: seq<u8>, i: nat, end: nat, es: seq<Entry>)
    requires AllOk(es) && i <= end <= |s| && s[i..end] == AllBytes(es)
    ensures ScanPmt(d, s, i, end) == Named(d, es)
    decreases |es|
  {
    hide EntryBytes;
    if es != [] {
      var e := es[0];
      var n := |EntryBytes(e)|;
      assert s[i..i + n] == s[i..end][..n] == EntryBytes(e);
      assert s[i + n..end] == s[i..end][n..] == AllBytes(es[1..]);
      EntryRead(s, i, e);
      var d' := if e.kind == STREAM_TYPE_H264 then d.(videoPid := Some(e.pid))
                else if e.kind == STREAM_TYPE_LPCM then d.(audioPid := Some(e.pid)) else d;
      EntriesRead(d', s, i + n, end, es[1..]);
    }
  }

  lemma ProgramParts(p: Program, crc: seq<u8>)
    requires ProgramOk(p) && |crc| == 4
    ensures var s := PmtSection(p, crc);
      var first := 12 + |p.info|;
      var end := first + |AllBytes(p.entries)|;
      && |s| == end + 4 && s[0] == 2 && s[first..end] == AllBytes(p.entries)
      && Len12(s[1], s[2]) + 3 == |s| && Len12(s[10], s[11]) == |p.info|
  {
    hide Be, AllBytes;
    var s, b := PmtSection(p, crc), ProgramBytes(p);
    LengthBack(0xB000, |b| + 4);
    LengthBack(0xF000, |p.info|);
    assert s[1] == Be(0xB000 + |b| + 4, 2)[0] && s[2] == Be(0xB000 + |b| + 4, 2)[1];
    assert s[10] == b[7] == Be(0xF000 + |p.info|, 2)[0] && s[11] == b[8] == Be(0xF000 + |p.info|, 2)[1];
    var k := 9 + |p.info|;
    assert s[k + 3..k + 3 + |AllBytes(p.entries)|] == b[k..] == AllBytes(p.entries);
  }

  lemma PmtRead(d: State, t: TsPacket, p: Program, crc: seq<u8>)
    requires ProgramOk(p) && |crc| == 4 && Holds(t, PmtSection(p, crc))
    ensures ReadPmt(d, t.payload, t.start) == Named(d, p.entries)
  {
    hide PmtSection, AllBytes, Len12;
    var section := PmtSection(p, crc);
    SectionOf(t, section);
    ProgramParts(p, crc);
    var s := Section(t.payload, t.start).value;
    var first := 12 + |p.info|;
    var end := first + |AllBytes(p.entries)|;
    assert s[first..end] == section[first..end];
    assert s[0] == section[0] && s[1] == section[1] && s[2] == section[2];
    assert s[10] == section[10] && s[11] == section[11];
    EntriesRead(d, s, first, end, p.entries);
  }

  // ---- from nothing to the reference ------------------------------------

  /** What a source announces: where its program map is, and the program. */
  datatype Announced = Announced(pat: seq<u8>, pmtPid: nat, pmt: seq<u8>, program: Program)

  ghost predicate Sound(x: Announced) {
    && IsPid(x.pmtPid) && ProgramOk(x.program)
    && (exists stream, number, crc :: x.pat == PatSection(stream, number, x.pmtPid, crc))
    && (exists crc :: |crc| == 4 && x.pmt == PmtSection(x.program, crc))
  }

  /** The program names these two streams, apart from each other and from its map. */
  predicate Names(x: Announced, v: u16, a: u16) {
    && LastOf(x.program.entries, STREAM_TYPE_H264) == Some(v) && LastOf(x.program.entries, STREAM_TYPE_LPCM) == Some(a)
    && v != 0 && a != 0 && v != a && v != x.pmtPid && a != x.pmtPid
  }

  /** Table packets say just this. */
  predicate Says(x: Announced, t: TsPacket) {
    (t.pid == 0 ==> Holds(t, x.pat)) && (t.pid == x.pmtPid ==> Holds(t, x.pmt))
  }

  predicate AllSay(x: Announced, ts: seq<TsPacket>) { forall i :: 0 <= i < |ts| ==> Says(x, ts[i]) }

  predicate Knows(d: State, x: Announced, v: u16, a: u16) {
    d.pmtPid == Some(x.pmtPid) && d.videoPid == Some(v) && d.audioPid == Some(a)
  }

  lemma PatLearned(x: Announced, d: State, t: TsPacket)
    requires Sound(x) && Holds(t, x.pat) && t.pid == 0
    ensures Receive(d, t) == (Noted(d, t).(pmtPid := Some(x.pmtPid)), [])
  {
    hide PatSection, ReadPat, Noted;
    var stream, number, crc :| x.pat == PatSection(stream, number, x.pmtPid, crc);
    PatRead(Noted(d, t), t, stream, number, x.pmtPid, crc);
  }

  lemma PmtLearned(x: Announced, d: State, t: TsPacket)
    requires Sound(x) && Holds(t, x.pmt) && t.pid == x.pmtPid && d.pmtPid == Some(x.pmtPid)
    ensures Receive(d, t) == (Named(Noted(d, t), x.program.entries), [])
  {
    hide PmtSection, ReadPmt, ProgramOk;
    var crc :| |crc| == 4 && x.pmt == PmtSection(x.program, crc);
    PmtRead(Noted(d, t), t, x.program, crc);
  }

  /** Once known, tables that say the same again move nothing. */
  lemma KnowsOn(x: Announced, d: State, t: TsPacket, v: u16, a: u16)
    requires Sound(x) && Names(x, v, a) && Knows(d, x, v, a) && Says(x, t)
    ensures Knows(Receive(d, t).0, x, v, a)
  {
    hide ReadPat, ReadPmt, Feed, ParsePes, Holds;
    if t.pid == 0 {
      PatLearned(x, d, t);
    } else if t.pid == x.pmtPid {
      PmtLearned(x, d, t);
    }
  }

  lemma {:induction false} StaysSteady(x: Announced, d: State, ts: seq<TsPacket>, v: u16, a: u16)
    requires Sound(x) && Names(x, v, a) && Knows(d, x, v, a) && AllSay(x, ts)
    ensures Steady(d, ts)
    decreases |ts|
  {
    hide Receive, Sound, Names, Says;
    if ts != [] {
      KnowsOn(x, d, ts[0], v, a);
      StaysSteady(x, Receive(d, ts[0]).0, ts[1..], v, a);
    }
  }

  lemma ReceiveTwo(d: State, t0: TsPacket, t1: TsPacket)
    ensures var (d1, u1) := Receive(d, t0); var (d2, u2) := Receive(d1, t1);
      ReceiveAll(d, [t0, t1]) == (d2, u1 + u2)
  {
    hide Receive;
    assert [t0, t1][1..] == [t1] && [t1][1..] == [];
    var (d1, u1) := Receive(d, t0);
    var (d2, u2) := Receive(d1, t1);
    assert ReceiveAll(d1, [t1]) == (d2, u2 + []) && u2 + [] == u2;
  }

  /** A PAT and then a PMT, and both streams are known, with nothing assembled yet. */
  lemma TablesLearned(x: Announced, t0: TsPacket, t1: TsPacket, v: u16, a: u16)
    requires Sound(x) && Names(x, v, a)
    requires t0.pid == 0 && Holds(t0, x.pat) && t1.pid == x.pmtPid && Holds(t1, x.pmt)
    ensures var d := ReceiveAll(FRESH, [t0, t1]).0;
      && Knows(d, x, v, a) && d.video == IDLE && d.audio == IDLE && v !in d.lastCc && a !in d.lastCc
      && d.continuityErrors == 0 && ReceiveAll(FRESH, [t0, t1]).1 == []
  {
    hide Dispatch, Holds, ReceiveAll, LastOf;
    PatLearned(x, FRESH, t0);
    var d1 := Receive(FRESH, t0).0;
    PmtLearned(x, d1, t1);
    ReceiveTwo(FRESH, t0, t1);
  }

  lemma {:induction false} ReceiveAppend(d: State, ts: seq<TsPacket>, more: seq<TsPacket>)
    ensures var (d1, u1) := ReceiveAll(d, ts); var (d2, u2) := ReceiveAll(d1, more);
      ReceiveAll(d, ts + more) == (d2, u1 + u2)
    decreases |ts|
  {
    hide Receive;
    if ts == [] {
      assert ts + more == more;
      assert [] + ReceiveAll(d, more).1 == ReceiveAll(d, more).1;
    } else {
      var (d1, u1) := Receive(d, ts[0]);
      ReceiveAppend(d1, ts[1..], more);
      assert (ts + more)[0] == ts[0] && (ts + more)[1..] == ts[1..] + more;
      var (d2, u2) := ReceiveAll(d1, ts[1..]);
      Reassociate(u1, u2, ReceiveAll(d2, more).1);
    }
  }

  /** From a demultiplexer that knows nothing: a PAT and a PMT that announce a program,
      then any packets whatever, the same tables again among them. What comes out is
      exactly the reference's units of the two streams announced, from their first
      packets on. */
  lemma FromTables(x: Announced, packets: seq<seq<u8>>, t0: TsPacket, t1: TsPacket, rest: seq<TsPacket>, v: u16, a: u16)
    requires Sound(x) && Names(x, v, a) && Readable(packets) == [t0, t1] + rest && AllSay(x, rest)
    requires t0.pid == 0 && Holds(t0, x.pat) && t1.pid == x.pmtPid && Holds(t1, x.pmt)
    ensures VideoOf(Run(FRESH, packets).1) == Reference(Pieces(rest, v, None), 0)
    ensures AudioOf(Run(FRESH, packets).1) == Reference(Pieces(rest, a, None), 0)
  {
    hide Receive, Sound, Names, AllSay, Holds, Readable, Run, Steady, Reference;
    RunReceives(FRESH, packets);
    TablesLearned(x, t0, t1, v, a);
    var d := ReceiveAll(FRESH, [t0, t1]).0;
    ReceiveAppend(FRESH, [t0, t1], rest);
    assert [] + ReceiveAll(d, rest).1 == ReceiveAll(d, rest).1;
    StaysSteady(x, d, rest, v, a);
    Apart(x, v, a);
    StreamsAreReference(d, rest, v, a);
  }

  lemma Apart(x: Announced, v: u16, a: u16)
    requires Names(x, v, a)
    ensures v != 0 && a != 0 && v != a && v != x.pmtPid && a != x.pmtPid
  {
  }

  // ---- the tables our own source sends ----------------------------------

  const PMT_PID: u16 := 0x1000
  const VIDEO_PID: u16 := 0x1011
  const AUDIO_PID: u16 := 0x1100

  /** A section in one packet, padded to length. */
  function SectionPacket(pid: u16, section: seq<u8>, cc: nat): seq<u8>
    requires pid < 0x2000 && cc < 16 && |section| <= 183
  {
    [0x47, 0x40 + pid / 256, pid % 256, 0x10 + cc] + ([0x00] + section + seq(183 - |section|, _ => 0xFF))
  }

  lemma SectionPacketReads(pid: u16, section: seq<u8>, cc: nat)
    requires pid < 0x2000 && cc < 16 && |section| <= 183
    ensures var packet := SectionPacket(pid, section, cc);
      && ReadPacket(packet) == Some(TsPacket(pid, true, cc, packet[4..]))
      && Holds(TsPacket(pid, true, cc, packet[4..]), section)
  {
    var packet := SectionPacket(pid, section, cc);
    var payload := [0x00] + section + seq(183 - |section|, _ => 0xFF);
    assert packet[4..] == payload;
    assert payload[..1 + |section|] == [0] + section;
  }

  /** One program of an H.264 and an LPCM stream, with their descriptors. */
  function OurProgram(video: seq<u8>, audio: seq<u8>): Program {
    Program(1, VIDEO_PID, [], [Entry(STREAM_TYPE_H264, VIDEO_PID, video), Entry(STREAM_TYPE_LPCM, AUDIO_PID, audio)])
  }

  /** They announce its two streams, whatever the descriptors and the checksums say. */
  lemma OurTablesAnnounce(video: seq<u8>, audio: seq<u8>, patCrc: seq<u8>, pmtCrc: seq<u8>)
    requires |video| + |audio| <= 100 && |pmtCrc| == 4
    ensures ProgramOk(OurProgram(video, audio))
    ensures var p := OurProgram(video, audio);
      var x := Announced(PatSection(1, 1, PMT_PID, patCrc), PMT_PID, PmtSection(p, pmtCrc), p);
      Sound(x) && Names(x, VIDEO_PID, AUDIO_PID)
  {
    var p := OurProgram(video, audio);
    assert p.entries[1..][1..] == [];
    assert AllBytes(p.entries[1..]) == EntryBytes(p.entries[1]) + [];
    assert LastOf(p.entries[1..], STREAM_TYPE_H264) == None;
    assert LastOf(p.entries[1..], STREAM_TYPE_LPCM) == Some(AUDIO_PID);
  }
}
