/** A stream of PES packets, each cut over transport packets as its sender likes, and the
    units a demultiplexer has to make of it, read off the PES packets themselves. */
module PesStream {
  import opened Common
  import opened Rtp
  import opened Demux
  import opened DemuxRefinement
  import opened PesLayout
  import T = Tables

  /** A PES packet and the pieces it is sent in: the header whole in the first. */
  datatype Sent = Sent(header: PesHeader, body: seq<u8>, parts: seq<seq<u8>>)

  predicate SentOk(x: Sent) {
    && PesOk(x.header) && x.parts != [] && Concat(x.parts) == PesBytes(x.header) + x.body
    && |x.parts[0]| >= |PesBytes(x.header)|
  }

  predicate AllSent(xs: seq<Sent>) { forall i :: 0 <= i < |xs| ==> SentOk(xs[i]) }

  /** The unit of one PES packet: with a declared length, that many bytes of the body; else,
      or when there are fewer, all of it, once the next has begun. */
  function UnitsOf(x: Sent, more: bool): seq<AccessUnit>
    requires PesOk(x.header)
  {
    var n := Declared(x.header);
    if n.Some? && n.value <= |x.body| then [AccessUnit(x.body[..n.value], ClockUs(x.header))]
    else if more && x.body != [] then [AccessUnit(x.body, ClockUs(x.header))]
    else []
  }

  /** The units of a stream of them, in order. */
  function Expected(xs: seq<Sent>): seq<AccessUnit>
    requires AllSent(xs)
  {
    if xs == [] then [] else UnitsOf(xs[0], |xs| > 1) + Expected(xs[1..])
  }

  // ---- as pieces --------------------------------------------------------

  /** The pieces of one, none of them broken. */
  function PiecesOf(x: Sent): seq<Piece> {
    seq(|x.parts|, i requires 0 <= i < |x.parts| => Piece(i == 0, false, ParsePes(x.parts[i]), x.parts[i]))
  }

  function AllPieces(xs: seq<Sent>): seq<Piece> {
    if xs == [] then [] else PiecesOf(xs[0]) + AllPieces(xs[1..])
  }

  lemma FirstPart(x: Sent)
    requires SentOk(x)
    ensures var n := |PesBytes(x.header)|;
      && ParsePes(x.parts[0]) == Some(Pes(ClockUs(x.header), Declared(x.header), x.parts[0][n..]))
      && x.parts[0][n..] + Concat(x.parts[1..]) == x.body
  {
    hide ParsePes, PesBytes, PesOk, Declared;
    var head, first := PesBytes(x.header), x.parts[0];
    var n := |head|;
    var all := first + Concat(x.parts[1..]);
    assert all == Concat(x.parts) == head + x.body;
    assert first == all[..|first|] && head == all[..n];
    assert first[..n] == head;
    assert first == head + first[n..];
    PesReads(x.header, first[n..]);
    assert all[n..] == x.body;
    assert all[n..] == first[n..] + Concat(x.parts[1..]);
  }

  /** Together they carry the body. */
  lemma CarriesBody(x: Sent)
    requires SentOk(x)
    ensures var g := PiecesOf(x);
      && g != [] && g[0].start && g[0].pes.Some? && g[0].pes.value.ptsUs == ClockUs(x.header)
      && g[0].pes.value.payloadLen == Declared(x.header) && Gathered(g) == x.body && Intact(g, |g| - 1)
      && (forall i :: 1 <= i < |g| ==> !g[i].start)
  {
    hide ParsePes, SentOk, PesBytes;
    assert SentOk(x) ==> x.parts != [] by { PartsThere(x); }
    FirstPart(x);
    var g := PiecesOf(x);
    assert Payloads(g[1..]) == x.parts[1..];
  }

  lemma PartsThere(x: Sent)
    ensures SentOk(x) ==> x.parts != [] && PesOk(x.header)
  {
  }

  lemma {:induction false} FullExactly(g: seq<Piece>, n: nat)
    requires g != [] ==> g[0].pes.Some?
    ensures FullAt(g, n).Some? <==> g != [] && |Gathered(g)| >= n
    ensures FullAt(g, n).Some? ==>
      var k := FullAt(g, n).value; |Gathered(g[..k + 1])| >= n && Gathered(g[..k + 1]) <= Gathered(g)
  {
    hide Gathered;
    if g != [] {
      var front, last := g[..|g| - 1], g[|g| - 1];
      assert front + [last] == g;
      FullExactly(front, n);
      if front != [] { GatheredSnoc(front, last); }
      FullStep(g, n);
    }
  }

  lemma FullStep(g: seq<Piece>, n: nat)
    requires g != [] && g[0].pes.Some?
    requires var front := g[..|g| - 1];
      && (FullAt(front, n).Some? <==> front != [] && |Gathered(front)| >= n)
      && (FullAt(front, n).Some? ==>
            var k := FullAt(front, n).value;
            |Gathered(front[..k + 1])| >= n && Gathered(front[..k + 1]) <= Gathered(front))
    requires |g| > 1 ==> Gathered(g) == Gathered(g[..|g| - 1]) + g[|g| - 1].payload
    ensures FullAt(g, n).Some? <==> |Gathered(g)| >= n
    ensures FullAt(g, n).Some? ==>
      var k := FullAt(g, n).value; |Gathered(g[..k + 1])| >= n && Gathered(g[..k + 1]) <= Gathered(g)
  {
    hide Gathered;
    var earlier := FullAt(g[..|g| - 1], n);
    if earlier.Some? {
      assert g[..earlier.value + 1] == g[..|g| - 1][..earlier.value + 1];
    } else {
      assert g[..|g|] == g;
    }
  }

  lemma GroupIsUnit(x: Sent, next: Option<Piece>)
    requires SentOk(x) && (next.Some? ==> !next.value.broken)
    ensures PiecesOf(x) != [] && GroupUnit(PiecesOf(x), next) == UnitsOf(x, next.Some?)
  {
    hide PiecesOf, SentOk, Gathered, ParsePes, FullAt;
    PartsThere(x);
    CarriesBody(x);
    var g := PiecesOf(x);
    var n := Declared(x.header);
    if n.Some? {
      FullExactly(g, n.value);
      if FullAt(g, n.value).Some? {
        var some := Gathered(g[..FullAt(g, n.value).value + 1]);
        CutIs(some, x.body, n);
      }
    }
  }

  lemma CutIs(some: seq<u8>, all: seq<u8>, n: Option<nat>)
    requires n.Some? && some <= all && |some| >= n.value
    ensures Cut(some, n) == all[..n.value]
  {
  }

  // ---- the reference ----------------------------------------------------

  lemma {:induction false} NextStartIs(ps: seq<Piece>, i: nat, j: nat)
    requires i <= j <= |ps| && (forall k :: i <= k < j ==> !ps[k].start) && (j < |ps| ==> ps[j].start)
    ensures NextStart(ps, i) == j
    decreases j - i
  {
    if i < j { NextStartIs(ps, i + 1, j); }
  }

  lemma StartsThere(xs: seq<Sent>)
    requires AllSent(xs) && xs != []
    ensures AllPieces(xs) != [] && AllPieces(xs)[0].start && !AllPieces(xs)[0].broken
  {
    hide ParsePes, SentOk;
    PartsThere(xs[0]);
    CarriesBody(xs[0]);
  }

  /** From some PES packet on, the reference makes of the pieces just its units. */
  lemma {:induction false} ReferenceIsExpected(ps: seq<Piece>, i: nat, xs: seq<Sent>)
    requires AllSent(xs) && i <= |ps| && ps[i..] == AllPieces(xs)
    ensures Reference(ps, i) == Expected(xs)
    decreases |xs|
  {
    hide SentOk, GroupUnit, UnitsOf, PiecesOf, Gathered, Intact;
    if xs == [] {
      assert i == |ps|;
    } else {
      var g := PiecesOf(xs[0]);
      var e := i + |g|;
      CarriesBody(xs[0]);
      assert ps[i..e] == ps[i..][..|g|] == g;
      assert ps[e..] == ps[i..][|g|..] == AllPieces(xs[1..]);
      forall k | i < k < e ensures !ps[k].start { assert ps[k] == g[k - i]; }
      assert ps[i] == g[0];
      if xs[1..] != [] {
        StartsThere(xs[1..]);
        assert ps[e] == ps[e..][0];
      }
      NextStartIs(ps, i, i);
      NextStartIs(ps, i + 1, e);
      GroupIsUnit(xs[0], At(ps, e));
      ReferenceIsExpected(ps, e, xs[1..]);
    }
  }

  // ---- on the wire ------------------------------------------------------

  /** The packets of a PID. */
  function On(ts: seq<TsPacket>, pid: u16): seq<TsPacket> {
    if ts == [] then [] else if ts[0].pid == pid then [ts[0]] + On(ts[1..], pid) else On(ts[1..], pid)
  }

  /** One PES packet in transport packets under consecutive counters. */
  function Packets(pid: u16, x: Sent, cc: nat): seq<TsPacket> {
    seq(|x.parts|, i requires 0 <= i < |x.parts| => TsPacket(pid, i == 0, (cc + i) % 16, x.parts[i]))
  }

  function AllPackets(pid: u16, xs: seq<Sent>, cc: nat): seq<TsPacket> {
    if xs == [] then [] else Packets(pid, xs[0], cc) + AllPackets(pid, xs[1..], (cc + |xs[0].parts|) % 16)
  }

  lemma {:induction false} OthersDoNotMatter(ts: seq<TsPacket>, pid: u16, cc: Option<nat>)
    ensures Pieces(ts, pid, cc) == Pieces(On(ts, pid), pid, cc)
    decreases |ts|
  {
    if ts != [] { OthersDoNotMatter(ts[1..], pid, if ts[0].pid == pid then Some(ts[0].cc) else cc); }
  }

  lemma {:induction false} PiecesAppend(a: seq<TsPacket>, b: seq<TsPacket>, pid: u16, cc: Option<nat>)
    requires forall i :: 0 <= i < |a| ==> a[i].pid == pid
    ensures Pieces(a + b, pid, cc) == Pieces(a, pid, cc) + Pieces(b, pid, if a == [] then cc else Some(a[|a| - 1].cc))
    decreases |a|
  {
    if a == [] {
      assert a + b == b;
    } else {
      assert (a + b)[0] == a[0] && (a + b)[1..] == a[1..] + b;
      PiecesAppend(a[1..], b, pid, Some(a[0].cc));
    }
  }

  /** The pieces of packets whose counters go on. */
  lemma {:induction false} RunOfPieces(ts: seq<TsPacket>, pid: u16, cc: Option<nat>)
    requires forall i :: 0 <= i < |ts| ==> ts[i].pid == pid
    requires forall i :: 0 < i < |ts| ==> ts[i].cc == (ts[i - 1].cc + 1) % 16
    requires ts != [] && cc.Some? ==> ts[0].cc == (cc.value + 1) % 16
    ensures var ps := Pieces(ts, pid, cc);
      && |ps| == |ts|
      && forall i :: 0 <= i < |ts| ==> ps[i] == Piece(ts[i].start, false, ParsePes(ts[i].payload), ts[i].payload)
    decreases |ts|
  {
    hide ParsePes;
    if ts != [] {
      RunOfPieces(ts[1..], pid, Some(ts[0].cc));
      var ps := Pieces(ts, pid, cc);
      forall i | 0 <= i < |ts|
        ensures ps[i] == Piece(ts[i].start, false, ParsePes(ts[i].payload), ts[i].payload)
      {
        if i > 0 { assert ps[i] == ps[1..][i - 1] && ts[i] == ts[1..][i - 1]; }
      }
    }
  }

  lemma OnePes(pid: u16, x: Sent, cc: nat, last: Option<nat>)
    requires x.parts != [] && cc < 16 && (last.Some? ==> cc == (last.value + 1) % 16)
    ensures Pieces(Packets(pid, x, cc), pid, last) == PiecesOf(x)
    ensures var ts := Packets(pid, x, cc); (cc + |x.parts|) % 16 == (ts[|ts| - 1].cc + 1) % 16
  {
    hide ParsePes, Pieces;
    var ts := Packets(pid, x, cc);
    forall i | 0 < i < |ts| ensures ts[i].cc == (ts[i - 1].cc + 1) % 16 { CounterNext(cc, i - 1); }
    CounterNext(cc, |x.parts| - 1);
    assert cc % 16 == cc;
    RunOfPieces(ts, pid, last);
    assert Pieces(ts, pid, last) == PiecesOf(x);
  }

  lemma CounterNext(cc: nat, i: nat)
    ensures ((cc + i) % 16 + 1) % 16 == (cc + (i + 1)) % 16
  {
  }

  lemma {:induction false} AllOnes(pid: u16, xs: seq<Sent>, cc: nat, last: Option<nat>)
    requires AllSent(xs) && cc < 16 && (last.Some? ==> cc == (last.value + 1) % 16)
    ensures Pieces(AllPackets(pid, xs, cc), pid, last) == AllPieces(xs)
    decreases |xs|
  {
    hide SentOk, Packets, PiecesOf, Pieces;
    if xs == [] {
      NoPieces(pid, last);
    } else {
      PartsThere(xs[0]);
      OnePes(pid, xs[0], cc, last);
      var ts := Packets(pid, xs[0], cc);
      SamePid(pid, xs[0], cc);
      var rest := AllPackets(pid, xs[1..], (cc + |xs[0].parts|) % 16);
      PiecesAppend(ts, rest, pid, last);
      AllOnes(pid, xs[1..], (cc + |xs[0].parts|) % 16, Some(ts[|ts| - 1].cc));
    }
  }

  lemma NoPieces(pid: u16, last: Option<nat>)
    ensures Pieces([], pid, last) == []
  {
  }

  lemma SamePid(pid: u16, x: Sent, cc: nat)
    ensures |Packets(pid, x, cc)| == |x.parts|
    ensures forall i :: 0 <= i < |x.parts| ==> Packets(pid, x, cc)[i].pid == pid
  {
  }

  /** PES packets sent on a PID, however cut and whatever else is sent in between: the
      reference's units are theirs, each with its clock and as long as it declares. */
  lemma SentIsExpected(ts: seq<TsPacket>, pid: u16, xs: seq<Sent>, cc: nat)
    requires AllSent(xs) && cc < 16 && On(ts, pid) == AllPackets(pid, xs, cc)
    ensures Reference(Pieces(ts, pid, None), 0) == Expected(xs)
  {
    hide SentOk, AllPackets, AllPieces, Reference, Expected;
    OthersDoNotMatter(ts, pid, None);
    AllOnes(pid, xs, cc, None);
    var ps := Pieces(ts, pid, None);
    assert ps[0..] == ps;
    ReferenceIsExpected(ps, 0, xs);
  }

  // ---- a whole program --------------------------------------------------

  predicate AllCarriers(ps: seq<Carrier>) { forall i :: 0 <= i < |ps| ==> CarrierOk(ps[i]) }

  /** The packets as bytes, and as what they say. */
  function Wire(ps: seq<Carrier>): seq<seq<u8>>
    requires AllCarriers(ps)
  {
    seq(|ps|, i requires 0 <= i < |ps| => PacketBytes(ps[i]))
  }

  function Told(ps: seq<Carrier>): seq<TsPacket> {
    seq(|ps|, i requires 0 <= i < |ps| => TsPacket(ps[i].pid, ps[i].start, ps[i].cc, ps[i].payload))
  }

  lemma {:induction false} WireReads(ps: seq<Carrier>)
    requires AllCarriers(ps)
    ensures Readable(Wire(ps)) == Told(ps)
  {
    hide ReadPacket, PacketBytes, CarrierOk;
    if ps != [] {
      PacketReads(ps[0]);
      assert Wire(ps)[1..] == Wire(ps[1..]) && Told(ps) == [Told(ps)[0]] + Told(ps[1..]);
      WireReads(ps[1..]);
    }
  }

  /** What a source sends: tables that announce a program, and then its two streams as PES
      packets, cut and interleaved as it likes, the tables again as often as it likes. */
  datatype Program = Program(
    tables: T.Announced, packets: seq<Carrier>, v: u16, a: u16, videos: seq<Sent>, audios: seq<Sent>, cv: nat, ca: nat)

  ghost predicate ProgramOk(p: Program) {
    && T.Sound(p.tables) && T.Names(p.tables, p.v, p.a) && AllCarriers(p.packets) && |p.packets| >= 2
    && AllSent(p.videos) && AllSent(p.audios) && p.cv < 16 && p.ca < 16
    && var ts := Told(p.packets);
       && ts[0].pid == 0 && T.Holds(ts[0], p.tables.pat)
       && ts[1].pid == p.tables.pmtPid && T.Holds(ts[1], p.tables.pmt)
       && T.AllSay(p.tables, ts[2..])
       && On(ts[2..], p.v) == AllPackets(p.v, p.videos, p.cv)
       && On(ts[2..], p.a) == AllPackets(p.a, p.audios, p.ca)
  }

  /** From the first byte: a demultiplexer that knows nothing makes of such a program
      exactly the units of its PES packets, video and audio. */
  lemma ProgramComesThrough(p: Program)
    requires ProgramOk(p)
    ensures var units := Run(FRESH, Wire(p.packets)).1;
      VideoOf(units) == Expected(p.videos) && AudioOf(units) == Expected(p.audios)
  {
    hide T.Sound, T.Names, T.Holds, T.AllSay, AllSent, CarrierOk, Readable, Run, Reference, Expected, AllPackets, On;
    var ts := Told(p.packets);
    WireReads(p.packets);
    assert ts == [ts[0], ts[1]] + ts[2..];
    T.FromTables(p.tables, Wire(p.packets), ts[0], ts[1], ts[2..], p.v, p.a);
    SentIsExpected(ts[2..], p.v, p.videos, p.cv);
    SentIsExpected(ts[2..], p.a, p.audios, p.ca);
  }
}
