/** What a playing session shows: exactly the units of the transport stream its datagrams
    carry; and what it asks for when something is lost or falls silent. */
module SessionMedia {
  import opened Common
  import opened Text
  import opened Rtsp
  import opened Negotiation
  import opened Session
  import opened SessionRuns
  import NegotiationRuns
  import Demux
  import D = DemuxRefinement
  import opened PesStream
  import Reorder
  import ReorderSort
  import Rtp

  // ---- media among the events -------------------------------------------

  function MediaOf(evs: seq<Event>): seq<Event> {
    if evs == [] then []
    else if IsMedia(evs[0]) then [evs[0]] + MediaOf(evs[1..])
    else MediaOf(evs[1..])
  }

  function VideosOf(evs: seq<Event>): seq<Demux.AccessUnit> {
    if evs == [] then [] else if evs[0].Video? then [evs[0].unit] + VideosOf(evs[1..]) else VideosOf(evs[1..])
  }

  function AudiosOf(evs: seq<Event>): seq<Demux.AccessUnit> {
    if evs == [] then [] else if evs[0].Audio? then [evs[0].unit] + AudiosOf(evs[1..]) else AudiosOf(evs[1..])
  }

  lemma {:induction false} MediaAppend(a: seq<Event>, b: seq<Event>)
    ensures MediaOf(a + b) == MediaOf(a) + MediaOf(b)
  {
    if a == [] {
      assert a + b == b;
    } else {
      MediaAppend(a[1..], b);
      assert (a + b)[0] == a[0] && (a + b)[1..] == a[1..] + b;
    }
  }

  lemma {:induction false} AllMedia(evs: seq<Event>)
    requires forall i :: 0 <= i < |evs| ==> IsMedia(evs[i])
    ensures MediaOf(evs) == evs
  {
    if evs != [] { AllMedia(evs[1..]); }
  }

  lemma {:induction false} NoMedia(evs: seq<Event>)
    requires forall i :: 0 <= i < |evs| ==> !IsMedia(evs[i])
    ensures MediaOf(evs) == []
  {
    if evs != [] { NoMedia(evs[1..]); }
  }

  lemma {:induction false} KindsOfMedia(evs: seq<Event>)
    ensures VideosOf(MediaOf(evs)) == VideosOf(evs) && AudiosOf(MediaOf(evs)) == AudiosOf(evs)
  {
    if evs != [] { KindsOfMedia(evs[1..]); }
  }

  /** The units shown, each as what it is. */
  lemma {:induction false} ShownAsTheyAre(us: seq<Demux.Unit>)
    ensures VideosOf(MediaEvents(us)) == D.VideoOf(us) && AudiosOf(MediaEvents(us)) == D.AudioOf(us)
  {
    if us != [] {
      ShownAsTheyAre(us[1..]);
      assert MediaEvents(us)[1..] == MediaEvents(us[1..]);
    }
  }

  lemma MediaEventsAppend(a: seq<Demux.Unit>, b: seq<Demux.Unit>)
    ensures MediaEvents(a + b) == MediaEvents(a) + MediaEvents(b)
  {
  }

  // ---- one datagram -----------------------------------------------------

  /** A datagram of our stream, while the gate is open. */
  predicate IsOurs(playing: bool, bytes: seq<u8>) {
    playing && Rtp.Parse(bytes).Some? && Rtp.Parse(bytes).value.payloadType == Rtp.PAYLOAD_TYPE
  }

  function PacketsOf(ps: seq<Rtp.Packet>): seq<seq<u8>> {
    if ps == [] then [] else PacketsOf(ps[..|ps| - 1]) + Chunks(ps[|ps| - 1].payload, Rtp.TS_PACKET_LEN)
  }

  lemma {:induction false} PacketsAppend(a: seq<Rtp.Packet>, b: seq<Rtp.Packet>)
    ensures PacketsOf(a + b) == PacketsOf(a) + PacketsOf(b)
  {
    if b == [] {
      assert a + b == a;
    } else {
      PacketsAppend(a, b[..|b| - 1]);
      assert (a + b)[..|a + b| - 1] == a + b[..|b| - 1];
      Reassociate(PacketsOf(a), PacketsOf(b[..|b| - 1]), Chunks(b[|b| - 1].payload, Rtp.TS_PACKET_LEN));
    }
  }

  lemma {:induction false} RunAppend(d: Demux.State, a: seq<seq<u8>>, b: seq<seq<u8>>)
    ensures var (d1, u1) := D.Run(d, a); var (d2, u2) := D.Run(d1, b); D.Run(d, a + b) == (d2, u1 + u2)
    decreases |a|
  {
    hide Demux.AfterPush;
    if a == [] {
      assert a + b == b;
      assert [] + D.Run(d, b).1 == D.Run(d, b).1;
    } else {
      var (d1, u1) := Demux.AfterPush(d, a[0]);
      RunAppend(d1, a[1..], b);
      assert (a + b)[0] == a[0] && (a + b)[1..] == a[1..] + b;
      var (d2, u2) := D.Run(d1, a[1..]);
      Reassociate(u1, u2, D.Run(d2, b).1);
    }
  }

  lemma RunOne(d: Demux.State, packet: seq<u8>)
    ensures D.Run(d, [packet]) == Demux.AfterPush(d, packet)
  {
    hide Demux.AfterPush;
    assert [packet][1..] == [];
    assert Demux.AfterPush(d, packet).1 + [] == Demux.AfterPush(d, packet).1;
  }

  lemma {:induction false} ChunksAreRun(d: Demux.State, chunks: seq<seq<u8>>)
    ensures PushChunks(d, chunks) == D.Run(d, chunks)
  {
    hide Demux.AfterPush;
    if chunks != [] {
      var front, last := chunks[..|chunks| - 1], chunks[|chunks| - 1];
      ChunksAreRun(d, front);
      RunAppend(d, front, [last]);
      RunOne(D.Run(d, front).0, last);
      assert front + [last] == chunks;
    }
  }

  lemma {:induction false} PacketsAreRun(d: Demux.State, ps: seq<Rtp.Packet>)
    ensures PushPackets(d, ps) == D.Run(d, PacketsOf(ps))
  {
    hide D.Run, PushChunks;
    if ps == [] {
      NothingRun(d);
    } else {
      var front, last := ps[..|ps| - 1], ps[|ps| - 1];
      PacketsAreRun(d, front);
      ChunksAreRun(D.Run(d, PacketsOf(front)).0, Chunks(last.payload, Rtp.TS_PACKET_LEN));
      RunAppend(d, PacketsOf(front), Chunks(last.payload, Rtp.TS_PACKET_LEN));
    }
  }

  lemma NothingRun(d: Demux.State)
    ensures D.Run(d, []) == (d, [])
  {
  }

  /** Requests go out as text, and change nothing of what is shown. */
  predicate OnlyAsks(s: Sink, s': Sink, evs: seq<Event>) {
    && s'.playing == s.playing && s'.reorder == s.reorder && s'.demux == s.demux && s'.buf == s.buf
    && forall i :: 0 <= i < |evs| ==> evs[i].SendRtsp?
  }

  lemma {:induction false} SendsApply(chosen: Option<VideoMode>, playing: bool, acts: seq<Action>)
    requires forall i :: 0 <= i < |acts| ==> acts[i].Send?
    ensures var (p, evs) := Apply(chosen, playing, acts);
      p == playing && |evs| == |acts| && forall i :: 0 <= i < |evs| ==> evs[i] == SendRtsp(Format(acts[i].msg))
  {
    hide Format;
    if acts != [] { SendsApply(chosen, playing, acts[..|acts| - 1]); }
  }

  lemma KeyframeOnlyAsks(cfg: Config, s: Sink, now: nat)
    ensures OnlyAsks(s, KeyframeWish(cfg, s, now).0, KeyframeWish(cfg, s, now).1)
  {
    hide Format, Uri, Decimal, Apply;
    var (neg, acts) := AfterKeyframeWish(cfg, s.neg, now);
    SendsApply(neg.chosen, s.playing, acts);
  }

  lemma LossOnlyAsks(cfg: Config, s: Sink, now: nat)
    ensures OnlyAsks(s, LossWish(cfg, s, now).0, LossWish(cfg, s, now).1)
  {
    hide KeyframeWish;
    KeyframeOnlyAsks(cfg, s.(lostSeen := Lost(s)), now);
  }

  lemma BitrateOnlyAsks(cfg: Config, s: Sink, now: nat)
    ensures OnlyAsks(s, BitrateWish(cfg, s, now).0, BitrateWish(cfg, s, now).1)
  {
    hide Format, Uri, Decimal, Apply, Ladder.AfterSample;
    var (l, kbps) := Ladder.AfterSample(s.ladder, Lost(s), now);
    if kbps.Some? {
      var (neg, acts) := AfterBitrateWish(cfg, s.neg, kbps.value);
      SendsApply(neg.chosen, s.playing, acts);
    }
  }

  /** What one datagram shows: the units of the packets it releases from the window, each
      of its kind, before anything is asked for. */
  lemma DatagramShows(cfg: Config, s: Sink, bytes: seq<u8>, now: nat)
    requires IsOurs(s.playing, bytes)
    ensures var (s', evs) := AfterDatagram(cfg, s, bytes, now);
      var (r, out) := Reorder.AfterPush(s.reorder, Rtp.Parse(bytes).value);
      var (d, units) := D.Run(s.demux, PacketsOf(out));
      && s'.playing && s'.reorder == r && s'.demux == d && s'.buf == s.buf && MediaOf(evs) == MediaEvents(units)
  {
    hide Reorder.AfterPush, D.Run, PacketsOf, LossWish, BitrateWish, Lost;
    var p := Rtp.Parse(bytes).value;
    PacketsAreRun(s.demux, Reorder.AfterPush(s.reorder, p).1);
    var (s1, e1) := AfterMedia(s, p, now);
    var (s2, e2) := LossWish(cfg, s1, now);
    var (s3, e3) := BitrateWish(cfg, s2, now);
    LossOnlyAsks(cfg, s1, now);
    BitrateOnlyAsks(cfg, s2, now);
    AllMedia(e1);
    NoMedia(e2);
    NoMedia(e3);
    MediaAppend(e1 + e2, e3);
    MediaAppend(e1, e2);
  }

  // ---- many datagrams ---------------------------------------------------

  function Feed(cfg: Config, s: Sink, ds: seq<seq<u8>>, at: seq<nat>): (Sink, seq<Event>)
    requires |ds| == |at|
    decreases |ds|
  {
    if ds == [] then (s, [])
    else
      var k := |ds| - 1;
      var (s1, e1) := Feed(cfg, s, ds[..k], at[..k]);
      var (s2, e2) := AfterDatagram(cfg, s1, ds[k], at[k]);
      (s2, e1 + e2)
  }

  predicate AllOurs(ds: seq<seq<u8>>) { forall i :: 0 <= i < |ds| ==> IsOurs(true, ds[i]) }

  function Read(ds: seq<seq<u8>>): seq<Rtp.Packet>
    requires AllOurs(ds)
  {
    seq(|ds|, i requires 0 <= i < |ds| => Rtp.Parse(ds[i]).value)
  }

  function LogFrom(r: Reorder.State): Reorder.Log { Reorder.Log(r, [], [], []) }

  lemma FeedSnoc(cfg: Config, s: Sink, ds: seq<seq<u8>>, at: seq<nat>)
    requires |ds| == |at| && ds != []
    ensures var k := |ds| - 1;
      var (s1, e1) := Feed(cfg, s, ds[..k], at[..k]);
      var (s2, e2) := AfterDatagram(cfg, s1, ds[k], at[k]);
      Feed(cfg, s, ds, at) == (s2, e1 + e2)
  {
    hide AfterDatagram;
  }

  lemma ReadSnoc(ds: seq<seq<u8>>)
    requires AllOurs(ds) && ds != []
    ensures var k := |ds| - 1; 
      AllOurs(ds[..k]) && Read(ds)[..k] == Read(ds[..k]) && Read(ds)[k] == Rtp.Parse(ds[k]).value
  {
    hide Rtp.Parse;
  }

  lemma StepOut(l: Reorder.Log, p: Rtp.Packet)
    ensures Reorder.Step(l, p).s == Reorder.AfterPush(l.s, p).0
    ensures Reorder.Step(l, p).out == l.out + Reorder.AfterPush(l.s, p).1
  {
    hide Reorder.AfterPush;
  }

  /** While the gate is open, whatever is fed: the media shown is exactly what a
      demultiplexer makes of what the window releases, in order and each unit of its
      kind, and the gate stays open. */
  lemma {:induction false} FeedShows(cfg: Config, s: Sink, ds: seq<seq<u8>>, at: seq<nat>)
    requires |ds| == |at| && s.playing && AllOurs(ds)
    ensures var (s', evs) := Feed(cfg, s, ds, at);
      var l := Reorder.Run(LogFrom(s.reorder), Read(ds));
      var (d, units) := D.Run(s.demux, PacketsOf(l.out));
      && s'.playing && s'.reorder == l.s && s'.demux == d && s'.buf == s.buf && MediaOf(evs) == MediaEvents(units)
    decreases |ds|
  {
    hide AfterDatagram, D.Run, PacketsOf, Reorder.AfterPush, Reorder.Step, Rtp.Parse;
    if ds == [] {
      NothingRun(s.demux);
      NoPackets();
    } else {
      var k := |ds| - 1;
      ReadSnoc(ds);
      FeedShows(cfg, s, ds[..k], at[..k]);
      FeedSnoc(cfg, s, ds, at);
      var (s1, e1) := Feed(cfg, s, ds[..k], at[..k]);
      DatagramShows(cfg, s1, ds[k], at[k]);
      var l := Reorder.Run(LogFrom(s.reorder), Read(ds[..k]));
      Reorder.RunLast(LogFrom(s.reorder), Read(ds));
      StepOut(l, Rtp.Parse(ds[k]).value);
      var out := Reorder.AfterPush(l.s, Rtp.Parse(ds[k]).value).1;
      PacketsAppend(l.out, out);
      RunAppend(s.demux, PacketsOf(l.out), PacketsOf(out));
      var (d1, u1) := D.Run(s.demux, PacketsOf(l.out));
      MediaEventsAppend(u1, D.Run(d1, PacketsOf(out)).1);
      MediaAppend(e1, AfterDatagram(cfg, s1, ds[k], at[k]).1);
    }
  }

  lemma NoPackets()
    ensures PacketsOf([]) == [] && MediaEvents([]) == []
  {
  }

  // ---- end to end -------------------------------------------------------

  /** A stream of 188-byte packets, cut into groups and the groups into packets. */
  lemma {:induction false} GroupsOfPackets(wire: seq<seq<u8>>, k: nat)
    requires k > 0 && forall i :: 0 <= i < |wire| ==> |wire[i]| == 188
    ensures ChunksAll(Chunks(Concat(wire), k * 188)) == wire
    decreases |wire|
  {
    var ts := Concat(wire);
    PacketsLength(wire);
    if wire == [] {
    } else if |wire| <= k {
      assert |ts| <= k * 188;
      OneGroup(wire);
    } else {
      var first, rest := wire[..k], wire[k..];
      PacketsLength(first);
      ConcatAppend(first, rest);
      assert first + rest == wire;
      assert k * 188 < |wire| * 188;
      assert ts[..k * 188] == Concat(first) && ts[k * 188..] == Concat(rest);
      GroupsOfPackets(rest, k);
      assert Chunks(ts, k * 188) == [Concat(first)] + Chunks(Concat(rest), k * 188);
      ChunksAllFirst(Concat(first), Chunks(Concat(rest), k * 188));
      ChunksBack(first);
    }
  }

  lemma OneGroup(wire: seq<seq<u8>>)
    requires wire != [] && forall i :: 0 <= i < |wire| ==> |wire[i]| == 188
    ensures ChunksAll([Concat(wire)]) == wire
  {
    ChunksBack(wire);
    ChunksAllFirst(Concat(wire), []);
    assert [Concat(wire)] + [] == [Concat(wire)] && wire + [] == wire;
  }

  lemma {:induction false} PacketsLength(wire: seq<seq<u8>>)
    requires forall i :: 0 <= i < |wire| ==> |wire[i]| == 188
    ensures |Concat(wire)| == |wire| * 188
  {
    if wire != [] { PacketsLength(wire[1..]); }
  }

  lemma {:induction false} ChunksBack(wire: seq<seq<u8>>)
    requires forall i :: 0 <= i < |wire| ==> |wire[i]| == 188
    ensures Chunks(Concat(wire), 188) == wire
  {
    if wire != [] {
      ChunksBack(wire[1..]);
      PacketsLength(wire[1..]);
      var ts := Concat(wire);
      if |wire| == 1 {
        assert wire == [wire[0]] && ts == wire[0] + [] == wire[0];
      } else {
        assert ts[..188] == wire[0] && ts[188..] == Concat(wire[1..]);
        assert wire == [wire[0]] + wire[1..];
      }
    }
  }

  /** Every group in packets. */
  function ChunksAll(groups: seq<seq<u8>>): seq<seq<u8>> {
    if groups == [] then [] else Chunks(groups[0], 188) + ChunksAll(groups[1..])
  }

  lemma ChunksAllFirst(g: seq<u8>, rest: seq<seq<u8>>)
    ensures ChunksAll([g] + rest) == Chunks(g, 188) + ChunksAll(rest)
  {
    assert ([g] + rest)[1..] == rest;
  }

  lemma {:induction false} ChunksAllSnoc(groups: seq<seq<u8>>, g: seq<u8>)
    ensures ChunksAll(groups + [g]) == ChunksAll(groups) + Chunks(g, 188)
  {
    hide Chunks;
    if groups == [] {
      assert groups + [g] == [g] + [];
      ChunksAllFirst(g, []);
      assert Chunks(g, 188) + [] == Chunks(g, 188) && [] + Chunks(g, 188) == Chunks(g, 188);
    } else {
      ChunksAllSnoc(groups[1..], g);
      assert (groups + [g])[0] == groups[0] && (groups + [g])[1..] == groups[1..] + [g];
      Reassociate(Chunks(groups[0], 188), ChunksAll(groups[1..]), Chunks(g, 188));
    }
  }

  lemma {:induction false} PacketsOfPayloads(ps: seq<Rtp.Packet>)
    ensures PacketsOf(ps) == ChunksAll(ReorderSort.Payloads(ps))
  {
    hide Chunks;
    if ps != [] {
      var front, last := ps[..|ps| - 1], ps[|ps| - 1];
      PacketsOfPayloads(front);
      assert ReorderSort.Payloads(ps) == ReorderSort.Payloads(front) + [last.payload];
      ChunksAllSnoc(ReorderSort.Payloads(front), last.payload);
    }
  }

  /** The datagrams in the order they arrive. */
  function Arrived(ds: seq<seq<u8>>, order: seq<nat>): seq<seq<u8>>
    requires ReorderSort.IsOrder(order, |ds|)
  {
    seq(|ds|, i requires 0 <= i < |ds| => ds[order[i]])
  }

  ghost predicate Cut(ts: seq<u8>, first: u16, timestamp: u32, ssrc: u32, ds: seq<seq<u8>>) {
    && |ds| == |Rtp.Groups(ts)|
    && forall i :: 0 <= i < |ds| ==>
         ds[i] == Rtp.Datagram(Rtp.SequenceAt(first, i), timestamp, ssrc, Rtp.Groups(ts)[i])
  }

  /** In any order the window restores, it releases the payloads as they were cut. */
  lemma ReleasedInOrder(ts: seq<u8>, first: u16, timestamp: u32, ssrc: u32, ds: seq<seq<u8>>, order: seq<nat>)
    requires Cut(ts, first, timestamp, ssrc, ds) && ReorderSort.IsOrder(order, |ds|)
    requires forall k :: 0 <= k < |order| ==> ReorderSort.ArrivalOk(order, k, REORDER_WINDOW)
    ensures AllOurs(Arrived(ds, order))
    ensures var l := Reorder.Run(LogFrom(Reorder.Fresh(REORDER_WINDOW)), Read(Arrived(ds, order)));
      ReorderSort.Payloads(l.out) == Rtp.Groups(ts) && l.s.lost == 0
  {
    hide Rtp.Datagram, Rtp.Parse, Rtp.Groups, ReorderSort.ArrivalOk, Reorder.Run;
    Rtp.TransportRoundTrip(ts, first, timestamp, ssrc, ds);
    var sent := ReorderSort.ParsedAll(ds);
    assert ReorderSort.Payloads(sent) == Rtp.Groups(ts);
    var arrived := Arrived(ds, order);
    assert Read(arrived) == ReorderSort.Arrivals(sent, order, |sent|);
    if ds == [] {
      ReorderSort.NothingSent(sent, order, REORDER_WINDOW);
    } else {
      ReorderSort.StreamSent(ts, first, timestamp, ssrc, ds);
      ReorderSort.GoodOrderRestores(sent, order, REORDER_WINDOW);
    }
  }

  /** End to end: a session that plays and has seen no media yet, fed the datagrams of a
      program in any order its window restores, shows exactly the units of the PES
      packets the source sent: every video unit and every audio unit, in order, with its
      clock and at its declared length. */
  lemma ProgramIsShown(cfg: Config, s: Sink, p: Program, first: u16, timestamp: u32, ssrc: u32, ds: seq<seq<u8>>,
                       order: seq<nat>, at: seq<nat>)
    requires s.playing && s.reorder == Reorder.Fresh(REORDER_WINDOW) && s.demux == Demux.FRESH
    requires ProgramOk(p) && Cut(Concat(Wire(p.packets)), first, timestamp, ssrc, ds)
    requires ReorderSort.IsOrder(order, |ds|) && |at| == |ds|
    requires forall k :: 0 <= k < |order| ==> ReorderSort.ArrivalOk(order, k, REORDER_WINDOW)
    ensures var (s', evs) := Feed(cfg, s, Arrived(ds, order), at);
      && s'.playing && s'.reorder.lost == 0
      && VideosOf(evs) == Expected(p.videos) && AudiosOf(evs) == Expected(p.audios)
  {
    hide Cut, ReorderSort.ArrivalOk, Feed, Reorder.Run, D.Run, Expected, Rtp.Parse, PacketsOf, AllPackets, On;
    var wire := Wire(p.packets);
    var ts := Concat(wire);
    ReleasedInOrder(ts, first, timestamp, ssrc, ds, order);
    FeedShows(cfg, s, Arrived(ds, order), at);
    var l := Reorder.Run(LogFrom(s.reorder), Read(Arrived(ds, order)));
    PacketsOfPayloads(l.out);
    GroupsOfPackets(wire, Rtp.PACKETS_PER_DATAGRAM);
    GroupsAre(ts);
    ProgramComesThrough(p);
    var units := D.Run(Demux.FRESH, wire).1;
    var evs := Feed(cfg, s, Arrived(ds, order), at).1;
    ShownAsTheyAre(units);
    KindsOfMedia(evs);
  }

  lemma GroupsAre(ts: seq<u8>)
    ensures Rtp.Groups(ts) == Chunks(ts, 7 * 188)
  {
  }

  // ---- sessions from their start ----------------------------------------

  /** Nothing but datagrams moves the media path. */
  lemma HandleLeavesMedia(cfg: Config, s: Sink, m: Message, now: nat)
    ensures var s' := Handle(cfg, s, m, now).0;
      s'.reorder == s.reorder && s'.demux == s.demux && s'.lostSeen == s.lostSeen && s'.lastMedia == s.lastMedia
  {
  }

  lemma {:induction false} FoldLeavesMedia(cfg: Config, s: Sink, ms: seq<Message>, now: nat)
    ensures var s' := Fold(Handler(cfg, now), s, ms).0;
      s'.reorder == s.reorder && s'.demux == s.demux && s'.lostSeen == s.lostSeen && s'.lastMedia == s.lastMedia
    decreases |ms|
  {
    hide Handle;
    if ms != [] {
      HandleLeavesMedia(cfg, s, ms[0], now);
      FoldLeavesMedia(cfg, Handle(cfg, s, ms[0], now).0, ms[1..], now);
    }
  }

  lemma RtspLeavesMedia(cfg: Config, s: Sink, bytes: string, now: nat)
    ensures var s' := AfterRtsp(cfg, s, bytes, now).0;
      s'.reorder == s.reorder && s'.demux == s.demux && s'.lostSeen == s.lostSeen && s'.lastMedia == s.lastMedia
  {
    hide Fold;
    var t := RtspStream.Take(s.buf + bytes);
    HandlerBufFree(cfg, now);
    FeedIs(Handler(cfg, now), s, bytes, t);
    FoldLeavesMedia(cfg, s, t.msgs, now);
  }

  lemma TickLeavesMedia(cfg: Config, s: Sink, now: nat)
    ensures var s' := AfterSessionTick(cfg, s, now).0;
      s'.reorder == s.reorder && s'.demux == s.demux && s'.lostSeen == s.lostSeen && s'.lastMedia == s.lastMedia
  {
    hide Apply, AfterTick, AfterBitrateWish, Ladder.AfterSample;
  }

  lemma WishLeavesMedia(cfg: Config, s: Sink, now: nat)
    ensures var s' := KeyframeWish(cfg, s, now).0;
      s'.reorder == s.reorder && s'.demux == s.demux && s'.lostSeen == s.lostSeen && s'.lastMedia == s.lastMedia
  {
    hide Apply;
  }

  /** Once seen, every loss is seen. */
  lemma DatagramSeesLoss(cfg: Config, s: Sink, bytes: seq<u8>, now: nat)
    requires s.lostSeen == Lost(s)
    ensures var s' := AfterDatagram(cfg, s, bytes, now).0;
      && s'.lostSeen == Lost(s') && s'.lastMedia == (if IsOurs(s.playing, bytes) then Some(now) else s.lastMedia)
      && (!IsOurs(s.playing, bytes) ==> s'.reorder == s.reorder && s'.demux == s.demux)
  {
    if IsOurs(s.playing, bytes) {
      hide Reorder.AfterPush, PushPackets, Apply, AfterKeyframeWish, AfterBitrateWish, Ladder.AfterSample, Rtp.Parse;
      var s1 := AfterMedia(s, Rtp.Parse(bytes).value, now).0;
      LossOnlyGrows(s, Rtp.Parse(bytes).value, now);
      assert LossWish(cfg, s1, now).0.lostSeen == Lost(s1);
    }
  }

  /** Counters only grow. */
  lemma LossOnlyGrows(s: Sink, p: Rtp.Packet, now: nat)
    ensures Lost(AfterMedia(s, p, now).0) >= Lost(s) && AfterMedia(s, p, now).0.lostSeen == s.lostSeen
  {
    hide D.Run, Reorder.Drain;
    var (r, out) := Reorder.AfterPush(s.reorder, p);
    if !Reorder.Refused(s.reorder, p.sequence) { ReorderSort.LostOnlyGrows(Reorder.Inserted(s.reorder, p)); }
    PacketsAreRun(s.demux, out);
    BreaksOnlyGrow(s.demux, PacketsOf(out));
  }

  lemma {:induction false} BreaksOnlyGrow(d: Demux.State, packets: seq<seq<u8>>)
    ensures D.Run(d, packets).0.continuityErrors >= d.continuityErrors
    decreases |packets|
  {
    hide Demux.AfterPush;
    if packets != [] {
      PushBreaks(d, packets[0]);
      BreaksOnlyGrow(Demux.AfterPush(d, packets[0]).0, packets[1..]);
    }
  }

  /** The counter that came last on a PID. */
  function LastOn(packets: seq<seq<u8>>, pid: u16): Option<nat> {
    if packets == [] then None
    else
      var t := Demux.ReadPacket(packets[|packets| - 1]);
      if t.Some? && t.value.pid == pid then Some(t.value.cc) else LastOn(packets[..|packets| - 1], pid)
  }

  /** How many packets do not count on from the one before them on their PID. */
  function Jumps(packets: seq<seq<u8>>): nat {
    if packets == [] then 0
    else
      var front, t := packets[..|packets| - 1], Demux.ReadPacket(packets[|packets| - 1]);
      Jumps(front)
      + if t.Some? && LastOn(front, t.value.pid).Some? && t.value.cc != (LastOn(front, t.value.pid).value + 1) % 16
        then 1 else 0
  }

  /** What the demultiplexer counts as lost are exactly these. */
  lemma {:induction false} JumpsAreCounted(packets: seq<seq<u8>>)
    ensures var d := D.Run(Demux.FRESH, packets).0;
      d.continuityErrors == Jumps(packets) && forall pid: u16 :: D.LastCc(d, pid) == LastOn(packets, pid)
  {
    hide Demux.AfterPush, Demux.ReadPacket;
    if packets != [] {
      var front, packet := packets[..|packets| - 1], packets[|packets| - 1];
      JumpsAreCounted(front);
      RunAppend(Demux.FRESH, front, [packet]);
      RunOne(D.Run(Demux.FRESH, front).0, packet);
      assert front + [packet] == packets;
      PushBreaks(D.Run(Demux.FRESH, front).0, packet);
    }
  }

  lemma PushBreaks(d: Demux.State, packet: seq<u8>)
    ensures var d1, t := Demux.AfterPush(d, packet).0, Demux.ReadPacket(packet);
      if t.None? then d1 == d
      else
        && d1.lastCc == d.lastCc[t.value.pid := t.value.cc]
        && d1.continuityErrors == d.continuityErrors + if Demux.Broken(d.lastCc, t.value) then 1 else 0
  {
    hide Demux.ReadPacket, Demux.Dispatch;
    var t := Demux.ReadPacket(packet);
    if t.Some? { D.DispatchKeeps(Demux.Noted(d, t.value), t.value); }
  }

  /** The time of the last datagram of ours. */
  function LastMedia(cfg: Config, ops: seq<Op>): Option<nat> {
    if ops == [] then None
    else
      var front, op := ops[..|ops| - 1], ops[|ops| - 1];
      if op.Datagram? && IsOurs(Run(cfg, front).0.playing, op.data) then Some(op.now) else LastMedia(cfg, front)
  }

  predicate NoneTaken(cfg: Config, ops: seq<Op>) { LastMedia(cfg, ops).None? }

  /** Over every run: whatever was lost has been seen, the media clock is the last datagram
      of ours, and until there is one the media path is untouched. */
  lemma {:induction false} RunSeesLoss(cfg: Config, ops: seq<Op>)
    ensures var s := Run(cfg, ops).0;
      && s.lostSeen == Lost(s) && s.lastMedia == LastMedia(cfg, ops)
      && (NoneTaken(cfg, ops) ==> s.reorder == Reorder.Fresh(REORDER_WINDOW) && s.demux == Demux.FRESH)
  {
    hide AfterRtsp, AfterDatagram, AfterSessionTick, KeyframeWish, Rtp.Parse;
    if ops != [] {
      var front, op := ops[..|ops| - 1], ops[|ops| - 1];
      RunSeesLoss(cfg, front);
      var s := Run(cfg, front).0;
      match op
      case RtspBytes(bytes, now) => RtspLeavesMedia(cfg, s, bytes, now);
      case Datagram(data, now) => DatagramSeesLoss(cfg, s, data, now);
      case Tick(now) => TickLeavesMedia(cfg, s, now);
      case DecodeError(now) => WishLeavesMedia(cfg, s, now);
    }
  }

  function OurSession(neg: State): Headers {
    if neg.peerSession.Some? then [("Session", neg.peerSession.value)] else []
  }

  /** A request of ours to the source, under this number. */
  function OurRequest(cfg: Config, neg: State, cseq: nat, body: string): Event {
    SendRtsp(Format(Message(Request("SET_PARAMETER", Uri(cfg, neg)),
                            [("CSeq", Decimal(cseq))] + OurSession(neg), body)))
  }

  lemma OneSend(chosen: Option<VideoMode>, playing: bool, m: Message)
    ensures Apply(chosen, playing, [Send(m)]) == (playing, [SendRtsp(Format(m))])
    ensures Apply(chosen, playing, []) == (playing, [])
  {
    hide Format;
    assert [Send(m)][..0] == [];
    assert [] + [SendRtsp(Format(m))] == [SendRtsp(Format(m))];
  }

  predicate Recent(neg: State, now: nat) { neg.lastIdr.Some? && SatSub(now, neg.lastIdr.value) < 500_000_000 }

  function Asked(cfg: Config, neg: State, wanted: bool, now: nat): seq<Event> {
    if wanted && !Recent(neg, now) then [OurRequest(cfg, neg, neg.nextCseq, "wfd_idr_request\r\n")] else []
  }

  lemma KeyframeSays(cfg: Config, s: Sink, now: nat)
    ensures var (s', evs) := KeyframeWish(cfg, s, now);
      && evs == Asked(cfg, s.neg, true, now)
      && s' == s.(neg := if Recent(s.neg, now) then s.neg
                         else s.neg.(nextCseq := s.neg.nextCseq + 1, lastIdr := Some(now)))
  {
    hide Format, Uri, Decimal, Apply;
    var (neg, acts) := AfterKeyframeWish(cfg, s.neg, now);
    OneSend(neg.chosen, s.playing,
            Ask(s.neg.nextCseq, "SET_PARAMETER", Uri(cfg, s.neg), SessionHeader(s.neg.peerSession), IDR_REQUEST));
  }

  function BitrateTold(cfg: Config, neg: State, cseq: nat, kbps: Option<u32>): seq<Event> {
    if kbps.Some? && neg.phase.Playing? then
      [OurRequest(cfg, neg, cseq, "microsoft_max_bitrate: " + Decimal(kbps.value) + "\r\n")]
    else []
  }

  lemma BitrateSays(cfg: Config, s: Sink, now: nat)
    ensures BitrateWish(cfg, s, now).1
         == BitrateTold(cfg, s.neg, s.neg.nextCseq, Ladder.AfterSample(s.ladder, Lost(s), now).1)
    ensures Lost(BitrateWish(cfg, s, now).0) == Lost(s)
  {
    hide Format, Uri, Decimal, Apply, Ladder.AfterSample;
    var (l, kbps) := Ladder.AfterSample(s.ladder, Lost(s), now);
    if kbps.Some? {
      OneSend(s.neg.chosen, s.playing,
              Ask(s.neg.nextCseq, "SET_PARAMETER", Uri(cfg, s.neg), SessionHeader(s.neg.peerSession),
                  "microsoft_max_bitrate: " + Decimal(kbps.value) + CRLF));
    }
  }

  lemma SameUri(cfg: Config, neg: State, neg': State)
    requires neg'.url == neg.url && neg'.peerSession == neg.peerSession
    ensures Uri(cfg, neg') == Uri(cfg, neg) && OurSession(neg') == OurSession(neg)
  {
  }

  /** After any run, everything one datagram leads to: what it shows; a request for a
      keyframe exactly when it brings a new loss to light, in the packet numbers or in
      the stream, and none was asked for within half a second; and the bitrate the
      ladder then answers to all that was lost so far. */
  lemma DatagramSays(cfg: Config, ops: seq<Op>, bytes: seq<u8>, now: nat)
    requires IsOurs(Run(cfg, ops).0.playing, bytes)
    ensures var s := Run(cfg, ops).0;
      var (s1, shown) := AfterMedia(s, Rtp.Parse(bytes).value, now);
      var asked := Asked(cfg, s.neg, Lost(s1) > Lost(s), now);
      var told := BitrateTold(cfg, s.neg, s.neg.nextCseq + |asked|, Ladder.AfterSample(s.ladder, Lost(s1), now).1);
      AfterDatagram(cfg, s, bytes, now).1 == shown + asked + told
      && Lost(AfterDatagram(cfg, s, bytes, now).0) == Lost(s1)
  {
    hide AfterMedia, Run, Format, Uri, Rtp.Parse, Ladder.AfterSample, KeyframeWish, BitrateWish, Decimal;
    RunSeesLoss(cfg, ops);
    var s := Run(cfg, ops).0;
    LossOnlyGrows(s, Rtp.Parse(bytes).value, now);
    MediaKeeps(s, Rtp.Parse(bytes).value, now);
    var s1 := AfterMedia(s, Rtp.Parse(bytes).value, now).0;
    KeyframeSays(cfg, s1.(lostSeen := Lost(s1)), now);
    var s2 := LossWish(cfg, s1, now).0;
    SameUri(cfg, s.neg, s2.neg);
    BitrateSays(cfg, s2, now);
  }

  lemma MediaKeeps(s: Sink, p: Rtp.Packet, now: nat)
    ensures var s1 := AfterMedia(s, p, now).0;
      s1.neg == s.neg && s1.ladder == s.ladder && s1.playing == s.playing
  {
    hide Reorder.AfterPush, PushPackets;
  }

  // ---- silence ----------------------------------------------------------

  /** After any run: a tick more than two seconds behind the last datagram ends the media,
      and says so; at any other it is not the media that ends it. */
  lemma SilenceEnds(cfg: Config, ops: seq<Op>, now: nat)
    ensures var s := Run(cfg, ops).0;
      var (s', evs) := AfterSessionTick(cfg, s, now);
      var silent := s.playing && LastMedia(cfg, ops).Some? && SatSub(now, LastMedia(cfg, ops).value) > 2_000_000_000;
      && (silent ==> !s'.playing && evs == [Ended("no media for 2 s")])
      && (!silent ==> Ended("no media for 2 s") !in evs)
  {
    hide Run, BitrateWish, LastMedia;
    RunSeesLoss(cfg, ops);
    var s := Run(cfg, ops).0;
    if !(s.playing && AtLeast(s.lastMedia, now, MEDIA_SILENCE + 1)) {
      BitrateOnlyAsks(cfg, s, now);
      TickEnds(cfg, BitrateWish(cfg, s, now).0, now);
    }
  }

  lemma OneAct(chosen: Option<VideoMode>, playing: bool, a: Action)
    ensures Apply(chosen, playing, [a]) == ApplyOne(chosen, playing, a)
  {
    hide Format;
    assert [a][..0] == [] && [] + ApplyOne(chosen, playing, a).1 == ApplyOne(chosen, playing, a).1;
  }

  lemma TickEnds(cfg: Config, s: Sink, now: nat)
    ensures var (neg, acts) := AfterTick(cfg, s.neg, now); Ended("no media for 2 s") !in Acted(s, neg, acts).1
  {
    hide Format, Uri, Decimal;
    var a, b := "no media for 2 s", "no keep-alive reply for 10 s";
    assert a[3] != b[3];
    var (neg, acts) := AfterTick(cfg, s.neg, now);
    if acts != [] {
      assert acts == [acts[0]];
      OneAct(neg.chosen, s.playing, acts[0]);
    }
  }
}
