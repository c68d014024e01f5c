/** A session talks as its negotiation does, and shows a program from the source's first
    word to the last unit. */
module SessionTalk {
  import opened Common
  import opened Text
  import opened Rtsp
  import opened RtspStream
  import opened Negotiation
  import opened Session
  import opened SessionRuns
  import N = NegotiationRuns
  import X = Exchange
  import G = OpenGate
  import opened SessionMedia
  import opened PesStream
  import ReorderSort
  import Rtp

  // ---- the negotiation behind a session ---------------------------------

  /** What a session has sent. */
  function Sent(evs: seq<Event>): seq<string> {
    if evs == [] then []
    else if evs[0].SendRtsp? then [evs[0].text] + Sent(evs[1..])
    else Sent(evs[1..])
  }

  lemma {:induction false} SentAppend(a: seq<Event>, b: seq<Event>)
    ensures Sent(a + b) == Sent(a) + Sent(b)
  {
    if a == [] {
      assert a + b == b;
    } else {
      SentAppend(a[1..], b);
      assert (a + b)[0] == a[0] && (a + b)[1..] == a[1..] + b;
    }
  }

  /** What a negotiation has asked to send. */
  function Texts(acts: seq<Action>): seq<string> {
    if acts == [] then []
    else
      var last := acts[|acts| - 1];
      Texts(acts[..|acts| - 1]) + if last.Send? then [Format(last.msg)] else []
  }

  lemma {:induction false} TextsAppend(a: seq<Action>, b: seq<Action>)
    ensures Texts(a + b) == Texts(a) + Texts(b)
  {
    hide Format;
    if b == [] {
      assert a + b == a;
    } else {
      TextsAppend(a, b[..|b| - 1]);
      assert (a + b)[..|a + b| - 1] == a + b[..|b| - 1];
    }
  }

  lemma {:induction false} ApplyTexts(chosen: Option<VideoMode>, playing: bool, acts: seq<Action>)
    ensures Sent(Apply(chosen, playing, acts).1) == Texts(acts)
  {
    hide Format;
    if acts != [] {
      var front, last := acts[..|acts| - 1], acts[|acts| - 1];
      ApplyTexts(chosen, playing, front);
      var (p, evs) := Apply(chosen, playing, front);
      var (q, more) := ApplyOne(chosen, p, last);
      SentAppend(evs, more);
      assert more != [] ==> more[1..] == [];
    }
  }

  /** A run of the negotiation alone that ends in this state and has sent this. */
  ghost predicate Behind(cfg: Config, nops: seq<N.Op>, neg: State, sent: seq<string>) {
    N.Run(cfg, nops).0 == neg && Texts(X.Did(N.Run(cfg, nops).1)) == sent
  }

  /** One call on the negotiation, and its actions carried out. */
  lemma BehindOn(cfg: Config, nops: seq<N.Op>, s: Sink, sent: seq<string>, op: N.Op)
    requires Behind(cfg, nops, s.neg, sent)
    ensures var (neg, acts) := N.Step(cfg, s.neg, op);
      Behind(cfg, nops + [op], neg, sent + Sent(Acted(s, neg, acts).1))
  {
    hide N.Step, N.Run, Apply;
    X.RunSnoc(cfg, nops, op);
    var (neg, acts) := N.Step(cfg, s.neg, op);
    ApplyTexts(neg.chosen, s.playing, acts);
    TextsAppend(X.Did(N.Run(cfg, nops).1), acts);
  }

  lemma {:induction false} BehindMessages(cfg: Config, nops: seq<N.Op>, s: Sink, sent: seq<string>, ms: seq<Message>,
                                           now: nat)
    returns (more: seq<N.Op>)
    requires Behind(cfg, nops, s.neg, sent)
    ensures var (s', evs) := Fold(Handler(cfg, now), s, ms); Behind(cfg, more, s'.neg, sent + Sent(evs))
    decreases |ms|
  {
    hide Behind, AfterMessage, Acted;
    if ms == [] {
      more := nops;
      assert sent + Sent([]) == sent;
    } else {
      BehindOn(cfg, nops, s, sent, N.Hear(ms[0], now));
      var (s1, e1) := Handle(cfg, s, ms[0], now);
      assert s1.neg == AfterMessage(cfg, s.neg, ms[0], now).0 by {
        ActedNeg(s, s1.neg, AfterMessage(cfg, s.neg, ms[0], now));
      }
      more := BehindMessages(cfg, nops + [N.Hear(ms[0], now)], s1, sent + Sent(e1), ms[1..], now);
      var e2 := Fold(Handler(cfg, now), s1, ms[1..]).1;
      SentAppend(e1, e2);
      assert (sent + Sent(e1)) + Sent(e2) == sent + (Sent(e1) + Sent(e2));
    }
  }

  lemma ActedNeg(s: Sink, neg: State, step: (State, seq<Action>))
    ensures Acted(s, step.0, step.1).0.neg == step.0
  {
  }

  lemma BehindRtsp(cfg: Config, nops: seq<N.Op>, s: Sink, sent: seq<string>, bytes: string, now: nat)
    returns (more: seq<N.Op>)
    requires Behind(cfg, nops, s.neg, sent)
    ensures var (s', evs) := AfterRtsp(cfg, s, bytes, now); Behind(cfg, more, s'.neg, sent + Sent(evs))
  {
    hide Behind, Fold, Take;
    var t := Take(s.buf + bytes);
    HandlerBufFree(cfg, now);
    FeedIs(Handler(cfg, now), s, bytes, t);
    more := BehindMessages(cfg, nops, s, sent, t.msgs, now);
    SentAppend(Fold(Handler(cfg, now), s, t.msgs).1, Report(t.failed));
    NothingSent(Report(t.failed));
    var before := Sent(Fold(Handler(cfg, now), s, t.msgs).1);
    assert before + [] == before;
  }

  lemma NothingSent(evs: seq<Event>)
    requires |evs| <= 1 && forall i :: 0 <= i < |evs| ==> !evs[i].SendRtsp?
    ensures Sent(evs) == []
  {
    if evs != [] { assert evs[1..] == []; }
  }

  lemma {:induction false} MediaSendsNothing(evs: seq<Event>)
    requires forall i :: 0 <= i < |evs| ==> IsMedia(evs[i])
    ensures Sent(evs) == []
  {
    if evs != [] { MediaSendsNothing(evs[1..]); }
  }

  lemma BehindKeyframe(cfg: Config, nops: seq<N.Op>, s: Sink, sent: seq<string>, now: nat)
    requires Behind(cfg, nops, s.neg, sent)
    ensures var (s', evs) := KeyframeWish(cfg, s, now);
      Behind(cfg, nops + [N.WantKeyframe(now)], s'.neg, sent + Sent(evs))
  {
    hide Behind, Apply, AfterKeyframeWish;
    BehindOn(cfg, nops, s, sent, N.WantKeyframe(now));
  }

  lemma BehindBitrate(cfg: Config, nops: seq<N.Op>, s: Sink, sent: seq<string>, now: nat) returns (more: seq<N.Op>)
    requires Behind(cfg, nops, s.neg, sent)
    ensures var (s', evs) := BitrateWish(cfg, s, now); Behind(cfg, more, s'.neg, sent + Sent(evs))
  {
    hide Behind, Apply, AfterBitrateWish, Ladder.AfterSample;
    var (l, kbps) := Ladder.AfterSample(s.ladder, Lost(s), now);
    if kbps.Some? {
      more := nops + [N.WantBitrate(kbps.value, now)];
      BehindOn(cfg, nops, s.(ladder := l), sent, N.WantBitrate(kbps.value, now));
    } else {
      more := nops;
      assert sent + Sent([]) == sent;
    }
  }

  lemma BehindDatagram(cfg: Config, nops: seq<N.Op>, s: Sink, sent: seq<string>, bytes: seq<u8>, now: nat)
    returns (more: seq<N.Op>)
    requires Behind(cfg, nops, s.neg, sent)
    ensures var (s', evs) := AfterDatagram(cfg, s, bytes, now); Behind(cfg, more, s'.neg, sent + Sent(evs))
  {
    hide Behind, AfterMedia, KeyframeWish, BitrateWish, Rtp.Parse, Lost;
    if !IsOurs(s.playing, bytes) {
      more := nops;
      assert sent + Sent([]) == sent;
    } else {
      var (s1, e1) := AfterMedia(s, Rtp.Parse(bytes).value, now);
      MediaKeeps(s, Rtp.Parse(bytes).value, now);
      ShownIsMedia(s, Rtp.Parse(bytes).value, now);
      MediaSendsNothing(e1);
      assert sent + Sent(e1) == sent;
      var (s2, e2) := LossWish(cfg, s1, now);
      var middle := BehindLoss(cfg, nops, s1, sent, now);
      more := BehindBitrate(cfg, middle, s2, sent + Sent(e2), now);
      var e3 := BitrateWish(cfg, s2, now).1;
      SentAppend(e1 + e2, e3);
      SentAppend(e1, e2);
      assert (sent + Sent(e2)) + Sent(e3) == sent + ([] + Sent(e2) + Sent(e3));
    }
  }

  lemma ShownIsMedia(s: Sink, p: Rtp.Packet, now: nat)
    ensures var evs := AfterMedia(s, p, now).1; forall i :: 0 <= i < |evs| ==> IsMedia(evs[i])
  {
  }

  lemma BehindLoss(cfg: Config, nops: seq<N.Op>, s: Sink, sent: seq<string>, now: nat) returns (more: seq<N.Op>)
    requires Behind(cfg, nops, s.neg, sent)
    ensures var (s', evs) := LossWish(cfg, s, now); Behind(cfg, more, s'.neg, sent + Sent(evs))
  {
    hide Behind, KeyframeWish, Lost;
    if Lost(s) > s.lostSeen {
      BehindKeyframe(cfg, nops, s.(lostSeen := Lost(s)), sent, now);
      more := nops + [N.WantKeyframe(now)];
    } else {
      more := nops;
      assert sent + Sent([]) == sent;
    }
  }

  lemma BehindTick(cfg: Config, nops: seq<N.Op>, s: Sink, sent: seq<string>, now: nat) returns (more: seq<N.Op>)
    requires Behind(cfg, nops, s.neg, sent)
    ensures var (s', evs) := AfterSessionTick(cfg, s, now); Behind(cfg, more, s'.neg, sent + Sent(evs))
  {
    hide Behind, BitrateWish, Apply, AfterTick;
    if s.playing && AtLeast(s.lastMedia, now, MEDIA_SILENCE + 1) {
      more := nops;
      NothingSent([Ended("no media for 2 s")]);
      assert sent + [] == sent;
    } else {
      var (s1, e1) := BitrateWish(cfg, s, now);
      var middle := BehindBitrate(cfg, nops, s, sent, now);
      BehindOn(cfg, middle, s1, sent + Sent(e1), N.Clock(now));
      more := middle + [N.Clock(now)];
      var (neg, acts) := AfterTick(cfg, s1.neg, now);
      var e2 := Acted(s1, neg, acts).1;
      SentAppend(e1, e2);
      assert (sent + Sent(e1)) + Sent(e2) == sent + (Sent(e1) + Sent(e2));
    }
  }

  /** Behind every run of a session is a run of its negotiation alone, in the same state,
      which has sent the same texts: so what holds of every negotiation holds of every
      session. */
  lemma {:induction false} NegotiationBehind(cfg: Config, ops: seq<Op>) returns (nops: seq<N.Op>)
    ensures Behind(cfg, nops, Run(cfg, ops).0.neg, Sent(Run(cfg, ops).1))
  {
    hide Behind, AfterRtsp, AfterDatagram, AfterSessionTick, KeyframeWish;
    if ops == [] {
      nops := [];
      BehindNothing(cfg);
    } else {
      var front, op := ops[..|ops| - 1], ops[|ops| - 1];
      var before := NegotiationBehind(cfg, front);
      var (s, log) := Run(cfg, front);
      match op {
        case RtspBytes(bytes, now) => nops := BehindRtsp(cfg, before, s, Sent(log), bytes, now);
        case Datagram(data, now) => nops := BehindDatagram(cfg, before, s, Sent(log), data, now);
        case Tick(now) => nops := BehindTick(cfg, before, s, Sent(log), now);
        case DecodeError(now) =>
          nops := before + [N.WantKeyframe(now)];
          BehindKeyframe(cfg, before, s, Sent(log), now);
      }
      SentAppend(log, Step(cfg, s, op).1);
    }
  }

  lemma BehindNothing(cfg: Config)
    ensures Behind(cfg, [], Run(cfg, []).0.neg, Sent(Run(cfg, []).1))
  {
  }

  // ---- from the first word to the last unit -----------------------------

  /** As the sink reads what is printed. */
  function AsRead(t: X.Talk): X.Talk {
    t.(m1 := Received(t.m1), r2 := Received(t.r2), m3 := Received(t.m3), m4 := Received(t.m4), m5 := Received(t.m5),
       r6 := Received(t.r6))
  }

  lemma {:induction false} FirstHeaderStays(hs: Headers, more: Headers, name: string)
    requires HeaderOf(hs, name).Some?
    ensures HeaderOf(hs + more, name) == HeaderOf(hs, name)
  {
    if !SameIgnoringCase(hs[0].0, name) {
      FirstHeaderStays(hs[1..], more, name);
      assert (hs + more)[1..] == hs[1..] + more;
    }
  }

  lemma StillAsks(m: Message, verb: string, c: nat)
    requires X.Asking(m, verb, c)
    ensures X.Asking(Received(m), verb, c) && Received(m).body == m.body
  {
    hide HeaderOf, Decimal;
    FirstHeaderStays(m.headers, ContentHeaders(m.body), "cseq");
  }

  lemma StillOpens(m: Message, session: string)
    requires X.OpensSession(m, session)
    ensures X.OpensSession(Received(m), session)
  {
    hide HeaderOf;
    FirstHeaderStays(m.headers, ContentHeaders(m.body), "session");
  }

  lemma StillProper(t: X.Talk)
    requires X.Proper(t)
    ensures X.Proper(AsRead(t))
  {
    hide X.Asking, X.OpensSession, X.ChoosesMode5, X.IsWord, Trim, X.ChoiceBody, X.TriggerBody;
    StillAsks(t.m1, "OPTIONS", t.c1);
    StillAsks(t.m3, "GET_PARAMETER", t.c3);
    StillAsks(t.m4, "SET_PARAMETER", t.c4);
    StillAsks(t.m5, "SET_PARAMETER", t.c5);
    StillOpens(t.r6, t.session);
  }

  predicate AllSendable(t: X.Talk) {
    && Sendable(t.m1) && Sendable(t.r2) && Sendable(t.m3) && Sendable(t.m4) && Sendable(t.m5) && Sendable(t.r6)
  }

  /** What the source says, printed. */
  function Said(t: X.Talk, at: seq<nat>): seq<Op>
    requires |at| == 6
  {
    [RtspBytes(Format(t.m1), at[0]), RtspBytes(Format(t.r2), at[1]), RtspBytes(Format(t.m3), at[2]),
     RtspBytes(Format(t.m4), at[3]), RtspBytes(Format(t.m5), at[4]), RtspBytes(Format(t.r6), at[5])]
  }

  /** Messages that only make us send. */
  lemma OnlySends(cfg: Config, ops: seq<Op>, m: Message, now: nat, acts: seq<Action>)
    requires Run(cfg, ops).0.buf == "" && Sendable(m)
    requires AfterMessage(cfg, Run(cfg, ops).0.neg, Received(m), now).1 == acts
    requires forall i :: 0 <= i < |acts| ==> acts[i].Send?
    ensures var (s, log) := Run(cfg, ops);
      var (s', log') := Run(cfg, ops + [RtspBytes(Format(m), now)]);
      && s' == s.(neg := AfterMessage(cfg, s.neg, Received(m), now).0)
      && MediaOf(log') == MediaOf(log)
  {
    hide Run, Format, AfterMessage, Apply, Sendable, AfterRtsp;
    var s := Run(cfg, ops).0;
    G.RunSnoc(cfg, ops, RtspBytes(Format(m), now));
    G.OneMessage(cfg, s, m, now);
    SendsApply(AfterMessage(cfg, s.neg, Received(m), now).0.chosen, s.playing, acts);
    var evs := Handle(cfg, s, Received(m), now).1;
    NoMedia(evs);
    MediaAppend(Run(cfg, ops).1, evs);
  }

  /** The one that makes us play. */
  lemma ThenPlays(cfg: Config, ops: seq<Op>, m: Message, now: nat, play: Message)
    requires Run(cfg, ops).0.buf == "" && Sendable(m)
    requires AfterMessage(cfg, Run(cfg, ops).0.neg, Received(m), now).1 == [Send(play), Play]
    ensures var (s, log) := Run(cfg, ops);
      var (s', log') := Run(cfg, ops + [RtspBytes(Format(m), now)]);
      var neg := AfterMessage(cfg, s.neg, Received(m), now).0;
      && s' == s.(neg := neg, playing := true) && MediaOf(log') == MediaOf(log)
      && log' == log + [SendRtsp(Format(play))] + (if neg.chosen.Some? then [Started(neg.chosen.value)] else [])
  {
    hide Run, Format, AfterMessage, Sendable, AfterRtsp;
    var (s, log) := Run(cfg, ops);
    G.RunSnoc(cfg, ops, RtspBytes(Format(m), now));
    G.OneMessage(cfg, s, m, now);
    var neg := AfterMessage(cfg, s.neg, Received(m), now).0;
    SendThenPlay(neg.chosen, s.playing, play);
    var evs := Handle(cfg, s, Received(m), now).1;
    NoMedia(evs);
    MediaAppend(log, evs);
    assert log + evs == log + [SendRtsp(Format(play))] + (if neg.chosen.Some? then [Started(neg.chosen.value)] else []);
  }

  lemma SendThenPlay(chosen: Option<VideoMode>, playing: bool, m: Message)
    ensures Apply(chosen, playing, [Send(m), Play])
         == (true, [SendRtsp(Format(m))] + if chosen.Some? then [Started(chosen.value)] else [])
  {
    hide Format;
    OneSend(chosen, playing, m);
    assert [Send(m), Play][..1] == [Send(m)];
  }

  /** The state the exchange is in after so many messages, and the session with it. */
  ghost predicate KeepsUp(cfg: Config, t: X.Talk, at: seq<nat>, k: nat)
    requires |at| == 6 && k <= 6
  {
    var (s, log) := Run(cfg, Said(t, at)[..k]);
    && s.neg == N.Run(cfg, X.Heard(AsRead(t), at)[..k]).0
    && s == START.(neg := s.neg) && MediaOf(log) == []
  }

  lemma KeepsUpOn(cfg: Config, t: X.Talk, at: seq<nat>, k: nat, m: Message, acts: seq<Action>)
    requires |at| == 6 && k < 6 && KeepsUp(cfg, t, at, k) && Sendable(m)
    requires Said(t, at)[k] == RtspBytes(Format(m), at[k]) && X.Heard(AsRead(t), at)[k] == N.Hear(Received(m), at[k])
    requires AfterMessage(cfg, N.Run(cfg, X.Heard(AsRead(t), at)[..k]).0, Received(m), at[k]).1 == acts
    requires forall i :: 0 <= i < |acts| ==> acts[i].Send?
    ensures KeepsUp(cfg, t, at, k + 1)
  {
    hide Run, N.Run, AfterMessage, Format, Sendable, Said, X.Heard;
    var ops, heard := Said(t, at), X.Heard(AsRead(t), at);
    SaidSize(t, at);
    assert ops[..k + 1] == ops[..k] + [ops[k]] && heard[..k + 1] == heard[..k] + [heard[k]];
    OnlySends(cfg, ops[..k], m, at[k], acts);
    X.RunSnoc(cfg, heard[..k], heard[k]);
  }

  lemma SaidSize(t: X.Talk, at: seq<nat>)
    requires |at| == 6
    ensures |Said(t, at)| == 6 && |X.Heard(AsRead(t), at)| == 6
  {
  }

  lemma KeepsUpNothing(cfg: Config, t: X.Talk, at: seq<nat>)
    requires |at| == 6
    ensures KeepsUp(cfg, t, at, 0)
  {
  }

  function MessageAt(t: X.Talk, k: nat): Message {
    if k == 0 then t.m1 else if k == 1 then t.r2 else if k == 2 then t.m3 else if k == 3 then t.m4
    else if k == 4 then t.m5 else t.r6
  }

  lemma MessagesAre(t: X.Talk, at: seq<nat>, k: nat)
    requires |at| == 6 && k < 6 && AllSendable(t)
    ensures |Said(t, at)| == 6 && |X.Heard(AsRead(t), at)| == 6 && Sendable(MessageAt(t, k))
    ensures Said(t, at)[k] == RtspBytes(Format(MessageAt(t, k)), at[k])
    ensures X.Heard(AsRead(t), at)[k] == N.Hear(Received(MessageAt(t, k)), at[k])
  {
    hide Format, Sendable;
  }

  /** Message by message, the session is where the exchange is, and shows nothing yet. */
  lemma {:induction false} KeepsUpTo(cfg: Config, t: X.Talk, at: seq<nat>, k: nat)
    requires X.Proper(t) && AllSendable(t) && |at| == 6 && k <= 5
    ensures KeepsUp(cfg, t, at, k)
    ensures |X.Heard(AsRead(t), at)| == 6 && N.Run(cfg, X.Heard(AsRead(t), at)[..k]).0 == X.Stage(AsRead(t), at, k)
  {
    hide X.Proper, AllSendable, KeepsUp, AsRead, X.Heard, N.Run, X.Stage, AfterMessage, Format;
    StillProper(t);
    MessagesAre(t, at, 0);
    if k == 0 {
      KeepsUpNothing(cfg, t, at);
      FirstStage(cfg, AsRead(t), at);
      assert X.Heard(AsRead(t), at)[..0] == [];
    } else {
      KeepsUpTo(cfg, t, at, k - 1);
      MessagesAre(t, at, k - 1);
      X.StageOn(cfg, AsRead(t), at, k - 1);
      KeepsUpOn(cfg, t, at, k - 1, MessageAt(t, k - 1),
                AfterMessage(cfg, X.Stage(AsRead(t), at, k - 1), Received(MessageAt(t, k - 1)), at[k - 1]).1);
    }
  }

  lemma FirstStage(cfg: Config, t: X.Talk, at: seq<nat>)
    requires |at| == 6
    ensures N.Run(cfg, []).0 == X.Stage(t, at, 0)
  {
  }

  /** Once the source has said it all, printed and in one piece each, the session plays: it
      has announced the mode and shown nothing yet, its window and its demultiplexer are
      as new, and the negotiation is where the exchange leaves it. */
  lemma SessionPlays(cfg: Config, t: X.Talk, at: seq<nat>)
    requires X.Proper(t) && AllSendable(t) && |at| == 6
    ensures var (s, log) := Run(cfg, Said(t, at));
      && s.playing && s.neg == N.Run(cfg, X.Heard(AsRead(t), at)).0 && s == START.(neg := s.neg, playing := true)
      && log != [] && log[|log| - 1] == Started(VideoMode(1280, 720, 30)) && MediaOf(log) == []
  {
    hide X.Proper, AllSendable, AsRead, X.Heard, Run, N.Run, AfterMessage, Format, Said, Sendable;
    KeepsUpTo(cfg, t, at, 5);
    MessagesAre(t, at, 5);
    StillProper(t);
    var r := AsRead(t);
    var ops, heard := Said(t, at), X.Heard(r, at);
    assert ops[..5] + [ops[5]] == ops && heard[..5] + [heard[5]] == heard;
    LastAnswer(cfg, t, at);
    ThenPlays(cfg, ops[..5], MessageAt(t, 5), at[5], LastPlay(r));
    X.RunSnoc(cfg, heard[..5], heard[5]);
  }

  function LastPlay(t: X.Talk): Message {
    Message(Request("PLAY", t.url), [("CSeq", Decimal(102))] + [("Session", t.session)], "")
  }

  lemma LastAnswer(cfg: Config, t: X.Talk, at: seq<nat>)
    requires X.Proper(t) && |at| == 6
    ensures var r := AsRead(t);
      var (neg, acts) := AfterMessage(cfg, X.Stage(r, at, 5), Received(MessageAt(t, 5)), at[5]);
      acts == [Send(LastPlay(r)), Play] && neg.chosen == Some(VideoMode(1280, 720, 30))
  {
    hide Decimal, HeaderOf, AfterMessage;
    StillProper(t);
    var r := AsRead(t);
    StageFive(r, at);
    X.HearsSession(cfg, X.Stage(r, at, 5), r.r6, r.session, at[5]);
  }

  lemma StageFive(t: X.Talk, at: seq<nat>)
    requires |at| == 6
    ensures var s := X.Stage(t, at, 5);
      s.phase.Ready? && s.peerSession.None? && s.url == t.url && s.nextCseq == 102
      && s.chosen == Some(VideoMode(1280, 720, 30))
  {
    assert X.Stage(t, at, 4).chosen == Some(VideoMode(1280, 720, 30));
    assert X.Stage(t, at, 3).peerSession == X.Stage(t, at, 2).peerSession == X.Stage(t, at, 1).peerSession == None;
  }

  /** Datagrams as calls on the session. */
  function Datagrams(ds: seq<seq<u8>>, at: seq<nat>): seq<Op>
    requires |ds| == |at|
  {
    seq(|ds|, i requires 0 <= i < |ds| => Datagram(ds[i], at[i]))
  }

  lemma {:induction false} FeedIsRun(cfg: Config, ops: seq<Op>, ds: seq<seq<u8>>, at: seq<nat>)
    requires |ds| == |at|
    ensures var (s, log) := Run(cfg, ops);
      var (s', evs) := Feed(cfg, s, ds, at);
      Run(cfg, ops + Datagrams(ds, at)) == (s', log + evs)
    decreases |ds|
  {
    hide AfterDatagram, Run, Feed;
    if ds == [] {
      assert ops + Datagrams(ds, at) == ops;
      FedNothing(cfg, Run(cfg, ops).0);
      assert Run(cfg, ops).1 + [] == Run(cfg, ops).1;
    } else {
      var k := |ds| - 1;
      FeedIsRun(cfg, ops, ds[..k], at[..k]);
      FeedSnoc(cfg, Run(cfg, ops).0, ds, at);
      assert ops + Datagrams(ds, at) == (ops + Datagrams(ds[..k], at[..k])) + [Datagram(ds[k], at[k])];
      G.RunSnoc(cfg, ops + Datagrams(ds[..k], at[..k]), Datagram(ds[k], at[k]));
      var (s1, e1) := Feed(cfg, Run(cfg, ops).0, ds[..k], at[..k]);
      Reassociate(Run(cfg, ops).1, e1, AfterDatagram(cfg, s1, ds[k], at[k]).1);
    }
  }

  lemma FedNothing(cfg: Config, s: Sink)
    ensures Feed(cfg, s, [], []) == (s, [])
  {
  }

  /** From the source's first word to the last unit: a session that hears the exchange and
      is then fed the datagrams of a program, in any order its window restores and
      whenever they come, shows exactly the units of the PES packets the source sent,
      video and audio, each with its clock and at its declared length, and has lost
      nothing. */
  lemma SessionShowsProgram(cfg: Config, t: X.Talk, said: seq<nat>, p: Program, first: u16, timestamp: u32, ssrc: u32,
                            ds: seq<seq<u8>>, order: seq<nat>, at: seq<nat>)
    requires X.Proper(t) && AllSendable(t) && |said| == 6
    requires ProgramOk(p) && Cut(Concat(Wire(p.packets)), first, timestamp, ssrc, ds)
    requires ReorderSort.IsOrder(order, |ds|) && |at| == |ds|
    requires forall k :: 0 <= k < |order| ==> ReorderSort.ArrivalOk(order, k, REORDER_WINDOW)
    ensures var (s, log) := Run(cfg, Said(t, said) + Datagrams(Arrived(ds, order), at));
      && s.playing && s.reorder.lost == 0
      && VideosOf(log) == Expected(p.videos) && AudiosOf(log) == Expected(p.audios)
  {
    hide X.Proper, AllSendable, Run, Feed, Cut, ReorderSort.ArrivalOk, Said, AllPackets, On, Expected;
    SessionPlays(cfg, t, said);
    var (s, log) := Run(cfg, Said(t, said));
    ProgramIsShown(cfg, s, p, first, timestamp, ssrc, ds, order, at);
    FeedIsRun(cfg, Said(t, said), Arrived(ds, order), at);
    var evs := Feed(cfg, s, Arrived(ds, order), at).1;
    MediaAppend(log, evs);
    assert [] + MediaOf(evs) == MediaOf(evs);
    KindsOfMedia(log + evs);
    KindsOfMedia(evs);
  }
}
