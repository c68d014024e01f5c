/** One sink session: RTSP bytes, RTP datagrams and clock ticks in, events out. */
module Session {
  import opened Common
  import opened Rtsp
  import opened RtspStream
  import opened Negotiation
  import Demux
  import Ladder
  import Reorder
  import Rtp

  const REORDER_WINDOW: nat := 32
  const MEDIA_SILENCE: nat := 2 * SECOND
  const MALFORMED := "malformed RTSP"

  datatype Event =
    | SendRtsp(text: string)
    | Video(unit: Demux.AccessUnit)
    | Audio(unit: Demux.AccessUnit)
    | Started(mode: VideoMode)
    | Ended(reason: string)

  datatype Sink = Sink(
    neg: State, buf: string, playing: bool, reorder: Reorder.State, demux: Demux.State,
    ladder: Ladder.State, lostSeen: nat, lastMedia: Option<nat>)

  const START := Sink(Negotiation.FRESH, "", false, Reorder.Fresh(REORDER_WINDOW), Demux.FRESH, Ladder.FRESH, 0, None)

  // ---- what the negotiation's actions become ----------------------------

  function ApplyOne(chosen: Option<VideoMode>, playing: bool, a: Action): (bool, seq<Event>) {
    match a
    case Send(m) => (playing, [SendRtsp(Format(m))])
    case Play => (true, if chosen.Some? then [Started(chosen.value)] else [])
    case Teardown(reason) => (false, [Ended(reason)])
  }

  function Apply(chosen: Option<VideoMode>, playing: bool, acts: seq<Action>): (bool, seq<Event>) {
    if acts == [] then (playing, [])
    else
      var (p, evs) := Apply(chosen, playing, acts[..|acts| - 1]);
      var (q, more) := ApplyOne(chosen, p, acts[|acts| - 1]);
      (q, evs + more)
  }

  function Acted(s: Sink, neg: State, acts: seq<Action>): (Sink, seq<Event>) {
    var (p, evs) := Apply(neg.chosen, s.playing, acts);
    (s.(neg := neg, playing := p), evs)
  }

  // ---- RTSP bytes -------------------------------------------------------

  function Handle(cfg: Config, s: Sink, m: Message, now: nat): (Sink, seq<Event>) {
    var (neg, acts) := AfterMessage(cfg, s.neg, m, now);
    Acted(s, neg, acts)
  }

  function Handler(cfg: Config, now: nat): (Sink, Message) -> (Sink, seq<Event>) {
    (s, m) => Handle(cfg, s, m, now)
  }

  function Report(failed: bool): seq<Event> { if failed then [Ended(MALFORMED)] else [] }

  /** Every whole message in the buffer is handled; bytes that do not parse end it. */
  function DrainWith(f: (Sink, Message) -> (Sink, seq<Event>), s: Sink): (Sink, seq<Event>) {
    var t := Take(s.buf);
    var (s', evs) := Fold(f, s, t.msgs);
    (s'.(buf := t.rest), evs + Report(t.failed))
  }

  function FeedWith(f: (Sink, Message) -> (Sink, seq<Event>), s: Sink, bytes: string): (Sink, seq<Event>) {
    DrainWith(f, s.(buf := s.buf + bytes))
  }

  function AfterRtsp(cfg: Config, s: Sink, bytes: string, now: nat): (Sink, seq<Event>) {
    FeedWith(Handler(cfg, now), s, bytes)
  }

  /** A handler that neither reads nor writes the buffer. */
  ghost predicate BufFree(f: (Sink, Message) -> (Sink, seq<Event>)) {
    forall s: Sink, m, buf :: f(s.(buf := buf), m) == (f(s, m).0.(buf := buf), f(s, m).1)
  }

  lemma HandlerBufFree(cfg: Config, now: nat)
    ensures BufFree(Handler(cfg, now))
  {
  }

  lemma {:induction false} BufIdle(f: (Sink, Message) -> (Sink, seq<Event>), s: Sink, ms: seq<Message>, buf: string)
    requires BufFree(f)
    ensures Fold(f, s.(buf := buf), ms) == (Fold(f, s, ms).0.(buf := buf), Fold(f, s, ms).1)
    decreases |ms|
  {
    if ms != [] { BufIdle(f, f(s, ms[0]).0, ms[1..], buf); }
  }

  lemma FeedIs(f: (Sink, Message) -> (Sink, seq<Event>), s: Sink, bytes: string, t: Taken)
    requires BufFree(f) && Take(s.buf + bytes) == t
    ensures var (h, evs) := Fold(f, s, t.msgs);
      FeedWith(f, s, bytes) == (h.(buf := t.rest), evs + Report(t.failed))
  {
    BufIdle(f, s, t.msgs, s.buf + bytes);
  }

  /** Draining, one message at a time. */
  lemma DrainUnfolds(f: (Sink, Message) -> (Sink, seq<Event>), s: Sink)
    requires BufFree(f) && Holds(s.buf)
    ensures var (s1, e1) := f(s.(buf := s.buf[Used(s.buf)..]), MessageOf(s.buf));
      var (s2, e2) := DrainWith(f, s1);
      DrainWith(f, s) == (s2, e1 + e2)
  {
    var rest := s.buf[Used(s.buf)..];
    var m := MessageOf(s.buf);
    TakeRest(s.buf);
    var t := Take(rest);
    assert Take(s.buf).msgs[0] == m && Take(s.buf).msgs[1..] == t.msgs;
    var (h, e1) := f(s, m);
    BufIdle(f, h, t.msgs, rest);
    Reassociate(e1, Fold(f, h, t.msgs).1, Report(t.failed));
  }

  /** Draining a buffer with no message at its front. */
  lemma LastDrain(f: (Sink, Message) -> (Sink, seq<Event>), s: Sink)
    requires !Holds(s.buf)
    ensures DrainWith(f, s) == if Parse(s.buf).Err? then (s.(buf := ""), [Ended(MALFORMED)]) else (s, [])
  {
    var none: seq<Event> := [];
    assert none + [Ended(MALFORMED)] == [Ended(MALFORMED)] && none + [] == [];
  }

  // ---- media ------------------------------------------------------------

  function PushChunks(d: Demux.State, chunks: seq<seq<u8>>): (Demux.State, seq<Demux.Unit>) {
    if chunks == [] then (d, [])
    else
      var (d1, us) := PushChunks(d, chunks[..|chunks| - 1]);
      var (d2, more) := Demux.AfterPush(d1, chunks[|chunks| - 1]);
      (d2, us + more)
  }

  function PushPackets(d: Demux.State, ps: seq<Rtp.Packet>): (Demux.State, seq<Demux.Unit>) {
    if ps == [] then (d, [])
    else
      var (d1, us) := PushPackets(d, ps[..|ps| - 1]);
      var (d2, more) := PushChunks(d1, Chunks(ps[|ps| - 1].payload, Rtp.TS_PACKET_LEN));
      (d2, us + more)
  }

  function MediaEvent(u: Demux.Unit): Event {
    match u
    case Video(unit) => Video(unit)
    case Audio(unit) => Audio(unit)
  }

  function MediaEvents(us: seq<Demux.Unit>): seq<Event> {
    seq(|us|, i requires 0 <= i < |us| => MediaEvent(us[i]))
  }

  function KeyframeWish(cfg: Config, s: Sink, now: nat): (Sink, seq<Event>) {
    var (neg, acts) := AfterKeyframeWish(cfg, s.neg, now);
    Acted(s, neg, acts)
  }

  /** Packets lost on the way plus breaks seen inside the stream. */
  function Lost(s: Sink): nat { s.reorder.lost + s.demux.continuityErrors }

  /** The ladder is sampled, and its answer passed on. */
  function BitrateWish(cfg: Config, s: Sink, now: nat): (Sink, seq<Event>) {
    var (l, kbps) := Ladder.AfterSample(s.ladder, Lost(s), now);
    if kbps.None? then (s.(ladder := l), [])
    else
      var (neg, acts) := AfterBitrateWish(cfg, s.neg, kbps.value);
      Acted(s.(ladder := l), neg, acts)
  }

  function LossWish(cfg: Config, s: Sink, now: nat): (Sink, seq<Event>) {
    if Lost(s) > s.lostSeen then KeyframeWish(cfg, s.(lostSeen := Lost(s)), now) else (s, [])
  }

  function AfterMedia(s: Sink, p: Rtp.Packet, now: nat): (Sink, seq<Event>) {
    var (r, packets) := Reorder.AfterPush(s.reorder, p);
    var (d, units) := PushPackets(s.demux, packets);
    (s.(lastMedia := Some(now), reorder := r, demux := d), MediaEvents(units))
  }

  function AfterDatagram(cfg: Config, s: Sink, bytes: seq<u8>, now: nat): (Sink, seq<Event>) {
    var p := Rtp.Parse(bytes);
    if !s.playing || p.None? || p.value.payloadType != Rtp.PAYLOAD_TYPE then (s, [])
    else
      var (s1, e1) := AfterMedia(s, p.value, now);
      var (s2, e2) := LossWish(cfg, s1, now);
      var (s3, e3) := BitrateWish(cfg, s2, now);
      (s3, e1 + e2 + e3)
  }

  function AfterSessionTick(cfg: Config, s: Sink, now: nat): (Sink, seq<Event>) {
    if s.playing && AtLeast(s.lastMedia, now, MEDIA_SILENCE + 1) then
      (s.(playing := false), [Ended("no media for 2 s")])
    else
      var (s1, e1) := BitrateWish(cfg, s, now);
      var (neg, acts) := AfterTick(cfg, s1.neg, now);
      var (s2, e2) := Acted(s1, neg, acts);
      (s2, e1 + e2)
  }

  // ---- the object -------------------------------------------------------

  class SinkSession {
    const cfg: Config
    const negotiation: Negotiator
    const reorder: Reorder.ReorderWindow
    const demux: Demux.Demultiplexer
    const ladder: Ladder.BitrateLadder
    var rtspBuf: string
    var playing: bool
    var lostSeen: nat
    var lastMedia: Option<nat>

    ghost predicate Valid() { negotiation.cfg == cfg }

    ghost function Value(): Sink
      reads this, negotiation, reorder, demux, ladder
    {
      Sink(negotiation.Value(), rtspBuf, playing, reorder.Value(), demux.Value(), ladder.Value(), lostSeen, lastMedia)
    }

    constructor (cfg: Config)
      ensures Valid() && this.cfg == cfg && Value() == START
      ensures fresh(negotiation) && fresh(reorder) && fresh(demux) && fresh(ladder)
    {
      this.cfg := cfg;
      negotiation := new Negotiator(cfg);
      reorder := new Reorder.ReorderWindow(REORDER_WINDOW);
      demux := new Demux.Demultiplexer();
      ladder := new Ladder.BitrateLadder();
      rtspBuf, playing, lostSeen, lastMedia := "", false, 0, None;
    }

    /** Turns actions into events, after `out`. */
    method ApplyActions(acts: seq<Action>, out: seq<Event>) returns (all: seq<Event>)
      modifies this`playing
      ensures playing == Apply(negotiation.chosen, old(playing), acts).0
      ensures all == out + Apply(negotiation.chosen, old(playing), acts).1
    {
      all := out;
      assert out + [] == out;
      for i := 0 to |acts|
        invariant playing == Apply(negotiation.chosen, old(playing), acts[..i]).0
        invariant all == out + Apply(negotiation.chosen, old(playing), acts[..i]).1
      {
        assert acts[..i + 1][..i] == acts[..i];
        ghost var evs := Apply(negotiation.chosen, old(playing), acts[..i]).1;
        ghost var more := ApplyOne(negotiation.chosen, playing, acts[i]).1;
        Reassociate(out, evs, more);
        match acts[i] {
          case Send(m) =>
            all := all + [SendRtsp(Format(m))];
          case Play =>
            playing := true;
            if negotiation.chosen.Some? {
              all := all + [Started(negotiation.chosen.value)];
            } else {
              assert all + [] == all;
            }
          case Teardown(reason) =>
            playing := false;
            all := all + [Ended(reason)];
        }
      }
      assert acts[..|acts|] == acts;
    }

    method OnMessage(m: Message, now: nat, out: seq<Event>) returns (all: seq<Event>)
      requires Valid()
      modifies this`playing, negotiation
      ensures Value() == Handle(cfg, old(Value()), m, now).0
      ensures all == out + Handle(cfg, old(Value()), m, now).1
    {
      var actions := negotiation.OnMessage(m, now);
      all := ApplyActions(actions, out);
    }

    method OnRtspBytes(bytes: string, now: nat) returns (out: seq<Event>)
      requires Valid()
      modifies this, negotiation
      ensures (Value(), out) == AfterRtsp(cfg, old(Value()), bytes, now)
    {
      rtspBuf := rtspBuf + bytes;
      out := DrainBuffer(now);
    }

    /** The loop inside `on_rtsp_bytes`. */
    method DrainBuffer(now: nat) returns (out: seq<Event>)
      requires Valid()
      modifies this, negotiation
      ensures (Value(), out) == DrainWith(Handler(cfg, now), old(Value()))
    {
      ghost var f := Handler(cfg, now);
      ghost var start := Value();
      HandlerBufFree(cfg, now);
      out := [];
      assert out + DrainWith(f, start).1 == DrainWith(f, start).1;
      while Holds(rtspBuf)
        invariant DrainWith(f, start).0 == DrainWith(f, Value()).0
        invariant DrainWith(f, start).1 == out + DrainWith(f, Value()).1
        decreases |rtspBuf|
      {
        ghost var before := Value();
        ghost var done := out;
        DrainUnfolds(f, before);
        var m, used := MessageOf(rtspBuf), Used(rtspBuf);
        rtspBuf := rtspBuf[used..];
        out := OnMessage(m, now, out);
        Reassociate(done, f(before.(buf := rtspBuf), m).1, DrainWith(f, Value()).1);
      }
      LastDrain(f, Value());
      if Parse(rtspBuf).Err? {
        rtspBuf := "";
        out := out + [Ended(MALFORMED)];
      } else {
        assert out + [] == out;
      }
    }

    method OnDatagram(bytes: seq<u8>, now: nat) returns (out: seq<Event>)
      requires Valid()
      modifies this, negotiation, reorder, demux, ladder
      ensures (Value(), out) == AfterDatagram(cfg, old(Value()), bytes, now)
    {
      if !playing { return []; }
      var p := Rtp.Parse(bytes);
      if p.None? { return []; }
      if p.value.payloadType != Rtp.PAYLOAD_TYPE { return []; }
      lastMedia := Some(now);
      var packets := reorder.Push(p.value);
      var units := DemuxPackets(packets);
      out := MediaEvents(units);
      ghost var heard := Value();
      assert (heard, out) == AfterMedia(old(Value()), p.value, now);
      out := AskAfterLoss(now, out);
      out := AskBitrate(now, out);
    }

    /** Asks for a keyframe when something was lost since the last look. */
    method AskAfterLoss(now: nat, out: seq<Event>) returns (all: seq<Event>)
      requires Valid()
      modifies this`playing, this`lostSeen, negotiation
      ensures Value() == LossWish(cfg, old(Value()), now).0
      ensures all == out + LossWish(cfg, old(Value()), now).1
    {
      hide Apply, AfterKeyframeWish;
      all := out;
      var lost := reorder.lost + demux.continuityErrors;
      if lost > lostSeen {
        lostSeen := lost;
        var actions := negotiation.RequestIdr(now);
        all := ApplyActions(actions, out);
      } else {
        assert out + [] == out;
      }
    }

    /** Samples the ladder and passes its answer on. */
    method AskBitrate(now: nat, out: seq<Event>) returns (all: seq<Event>)
      requires Valid()
      modifies this`playing, negotiation, ladder
      ensures Value() == BitrateWish(cfg, old(Value()), now).0
      ensures all == out + BitrateWish(cfg, old(Value()), now).1
    {
      hide Apply, AfterBitrateWish, Ladder.AfterSample;
      all := out;
      var kbps := ladder.Sample(reorder.lost + demux.continuityErrors, now);
      if kbps.Some? {
        var actions := negotiation.RequestBitrate(kbps.value);
        all := ApplyActions(actions, out);
      } else {
        assert out + [] == out;
      }
    }

    /** The packet loop inside `on_rtp_datagram`. */
    method DemuxPackets(packets: seq<Rtp.Packet>) returns (units: seq<Demux.Unit>)
      modifies demux
      ensures (demux.Value(), units) == PushPackets(old(demux.Value()), packets)
    {
      units := [];
      for i := 0 to |packets|
        invariant (demux.Value(), units) == PushPackets(old(demux.Value()), packets[..i])
      {
        assert packets[..i + 1][..i] == packets[..i];
        var more := DemuxChunks(Chunks(packets[i].payload, Rtp.TS_PACKET_LEN));
        units := units + more;
      }
      assert packets[..|packets|] == packets;
    }

    method DemuxChunks(chunks: seq<seq<u8>>) returns (units: seq<Demux.Unit>)
      modifies demux
      ensures (demux.Value(), units) == PushChunks(old(demux.Value()), chunks)
    {
      units := [];
      for i := 0 to |chunks|
        invariant (demux.Value(), units) == PushChunks(old(demux.Value()), chunks[..i])
      {
        assert chunks[..i + 1][..i] == chunks[..i];
        var more := demux.Push(chunks[i]);
        units := units + more;
      }
      assert chunks[..|chunks|] == chunks;
    }

    method Tick(now: nat) returns (out: seq<Event>)
      requires Valid()
      modifies this, negotiation, ladder
      ensures (Value(), out) == AfterSessionTick(cfg, old(Value()), now)
    {
      if playing && lastMedia.Some? && SatSub(now, lastMedia.value) > MEDIA_SILENCE {
        playing := false;
        return [Ended("no media for 2 s")];
      }
      out := AskBitrate(now, []);
      assert out == BitrateWish(cfg, old(Value()), now).1;
      var actions := negotiation.Tick(now);
      out := ApplyActions(actions, out);
    }

    method NoteDecodeError(now: nat) returns (out: seq<Event>)
      requires Valid()
      modifies this`playing, negotiation
      ensures (Value(), out) == KeyframeWish(cfg, old(Value()), now)
    {
      var actions := negotiation.RequestIdr(now);
      out := ApplyActions(actions, []);
      assert out == KeyframeWish(cfg, old(Value()), now).1;
    }
  }
}
