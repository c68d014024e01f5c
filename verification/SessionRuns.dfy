/** Two results about whole sessions: how the RTSP stream is divided does not matter,
    and no media passes before the source has been told to play. */
module SessionRuns {
  import opened Common
  import opened Text
  import opened Rtsp
  import opened RtspStream
  import opened Negotiation
  import NegotiationRuns
  import Ladder
  import Rtp
  import opened Session

  // ---- division of the RTSP stream --------------------------------------

  /** Bytes in, with what handles each message left open. */
  function FeederWith(f: (Sink, Message) -> (Sink, seq<Event>)): (Sink, string) -> (Sink, seq<Event>) {
    (s, bytes) => FeedWith(f, s, bytes)
  }

  function FeedAllWith(f: (Sink, Message) -> (Sink, seq<Event>), s: Sink, chunks: seq<string>): (Sink, seq<Event>) {
    Fold(FeederWith(f), s, chunks)
  }

  /** Chunks arriving one after the other at the same instant. */
  function FeedAll(cfg: Config, s: Sink, chunks: seq<string>, now: nat): (Sink, seq<Event>) {
    FeedAllWith(Handler(cfg, now), s, chunks)
  }

  /** What one drain and then another hand on is what one drain of both would. */
  lemma DrainsJoin(f: (Sink, Message) -> (Sink, seq<Event>), s: Sink, t: Taken, u: Taken)
    requires BufFree(f)
    ensures var (h, e1) := Fold(f, s, t.msgs);
      var (k, e2) := Fold(f, h.(buf := t.rest), u.msgs);
      var (k', e) := Fold(f, s, Joined(t, u).msgs);
      k'.(buf := u.rest) == k.(buf := u.rest)
      && e + Report(Joined(t, u).failed) == e1 + (e2 + Report(u.failed))
  {
    hide Fold;
    var (h, e1) := Fold(f, s, t.msgs);
    BufIdle(f, h, u.msgs, t.rest);
    FoldAppend(f, s, t.msgs, u.msgs);
    Reassociate(e1, Fold(f, h, u.msgs).1, Report(u.failed));
  }

  /** Feeding two pieces is feeding them as one, when the first leaves no error. */
  lemma FeedTwice(f: (Sink, Message) -> (Sink, seq<Event>), s: Sink, a: string, b: string)
    requires BufFree(f) && !Take(s.buf + a).failed
    ensures var (s1, e1) := FeedWith(f, s, a);
      var (s2, e2) := FeedWith(f, s1, b);
      FeedWith(f, s, a + b) == (s2, e1 + e2)
  {
    hide Take, Fold, FeedWith, BufFree, Parse;
    var t := Take(s.buf + a);
    var u := Take(t.rest + b);
    TakeAppend(s.buf + a, b);
    Reassociate(s.buf, a, b);
    FeedIs(f, s, a, t);
    var (h, e1) := Fold(f, s, t.msgs);
    assert e1 + Report(t.failed) == e1;
    FeedIs(f, h.(buf := t.rest), b, u);
    FeedIs(f, s, a + b, Joined(t, u));
    DrainsJoin(f, s, t, u);
  }

  /** No prefix of the stream, taken behind what is already buffered, fails. */
  ghost predicate NeverFails(buf: string, stream: string) {
    forall n: nat :: n <= |stream| ==> !Take(buf + stream[..n]).failed
  }

  lemma PrefixNeverFails(buf: string, a: string, b: string)
    requires NeverFails(buf, a + b)
    ensures NeverFails(buf, a) && !Take(buf + a).failed
  {
    forall n: nat | n <= |a| ensures !Take(buf + a[..n]).failed { assert (a + b)[..n] == a[..n]; }
    assert a[..|a|] == a;
  }

  /** Division does not matter where no prefix fails: state, left-over bytes and
      events are those of one feed. */
  lemma {:induction false} ManyFeedsAreOne(f: (Sink, Message) -> (Sink, seq<Event>), s: Sink, chunks: seq<string>)
    requires BufFree(f) && Parse(s.buf) == Ok(None) && NeverFails(s.buf, Concat(chunks))
    ensures FeedAllWith(f, s, chunks) == FeedWith(f, s, Concat(chunks))
  {
    if chunks == [] {
      assert s.buf + "" == s.buf;
      LastDrain(f, s);
    } else {
      var front, last := chunks[..|chunks| - 1], chunks[|chunks| - 1];
      ConcatSnoc(front, last);
      assert front + [last] == chunks;
      PrefixNeverFails(s.buf, Concat(front), last);
      ManyFeedsAreOne(f, s, front);
      FoldSnoc(FeederWith(f), s, front, last);
      FeedTwice(f, s, Concat(front), last);
    }
  }

  // no handled message is reported as malformed

  ghost predicate Discreet(f: (Sink, Message) -> (Sink, seq<Event>)) {
    forall s, m :: Ended(MALFORMED) !in f(s, m).1
  }

  lemma {:induction false} FoldReports(f: (Sink, Message) -> (Sink, seq<Event>), s: Sink, ms: seq<Message>)
    requires Discreet(f)
    ensures Ended(MALFORMED) !in Fold(f, s, ms).1
    decreases |ms|
  {
    if ms != [] { FoldReports(f, f(s, ms[0]).0, ms[1..]); }
  }

  lemma FailureReports(f: (Sink, Message) -> (Sink, seq<Event>), s: Sink, bytes: string)
    requires Discreet(f)
    ensures Ended(MALFORMED) in FeedWith(f, s, bytes).1 <==> Take(s.buf + bytes).failed
  {
    FoldReports(f, s.(buf := s.buf + bytes), Take(s.buf + bytes).msgs);
  }

  lemma TwoChunks(f: (Sink, Message) -> (Sink, seq<Event>), s: Sink, a: string, b: string)
    ensures forall e :: e in FeedWith(f, s, a).1 ==> e in FeedAllWith(f, s, [a, b]).1
    ensures Concat([a, b]) == a + b
  {
    FoldOne(FeederWith(f), s, a);
    FoldSnoc(FeederWith(f), s, [a], b);
    assert [a] + [b] == [a, b];
    ConcatSnoc([a], b);
    ConcatSnoc([], a);
    assert [] + [a] == [a] && Concat([a]) == a;
  }

  /** A head that ends within three bytes of the limit, cut inside its blank line,
      is refused; read at once it is not. */
  lemma LongHeadDivides(f: (Sink, Message) -> (Sink, seq<Event>), s: Sink, stream: string) returns (chunks: seq<string>)
    requires Discreet(f) && s.buf == "" && Whole(stream) && !HeadsFit(stream)
    ensures Concat(chunks) == stream && FeedAllWith(f, s, chunks) != FeedWith(f, s, stream)
  {
    hide Parse, Find;
    var n := LongHeadFails(stream);
    var a, b := stream[..n], stream[n..];
    chunks := [a, b];
    TwoChunks(f, s, a, b);
    assert a + b == stream && "" + a == a && "" + stream == stream;
    WholeTakes(stream);
    FailureReports(f, s, a);
    FailureReports(f, s, stream);
  }

  lemma FittingNeverFails(stream: string)
    requires Whole(stream) && HeadsFit(stream)
    ensures NeverFails("", stream) && Parse("") == Ok(None)
  {
    FindIs("", BLANK, 0);
    forall n: nat | n <= |stream| ensures !Take("" + stream[..n]).failed {
      assert "" + stream[..n] == stream[..n];
      PrefixIsClean(stream, n);
    }
  }

  /** For a stream of whole messages, every division into chunks gives the state, the
      left-over bytes and the events of one feed exactly when every head ends at least
      three bytes below the limit: for any handler of messages that minds its own
      business. */
  lemma DivisionsAgree(f: (Sink, Message) -> (Sink, seq<Event>), s: Sink, stream: string)
    requires BufFree(f) && Discreet(f) && s.buf == "" && Whole(stream)
    ensures HeadsFit(stream) <==>
      forall chunks :: Concat(chunks) == stream ==> FeedAllWith(f, s, chunks) == FeedWith(f, s, stream)
  {
    if HeadsFit(stream) {
      FittingNeverFails(stream);
      forall chunks | Concat(chunks) == stream ensures FeedAllWith(f, s, chunks) == FeedWith(f, s, stream) {
        ManyFeedsAreOne(f, s, chunks);
      }
    } else {
      var chunks := LongHeadDivides(f, s, stream);
    }
  }

  // and so for the negotiation

  lemma {:induction false} ApplyReports(chosen: Option<VideoMode>, playing: bool, acts: seq<Action>)
    requires forall i :: 0 <= i < |acts| && acts[i].Teardown? ==> acts[i].reason != MALFORMED
    ensures Ended(MALFORMED) !in Apply(chosen, playing, acts).1
  {
    if acts != [] { ApplyReports(chosen, playing, acts[..|acts| - 1]); }
  }

  lemma ReasonsDiffer()
    ensures "source sent TEARDOWN" != MALFORMED && "source refused a request" != MALFORMED
    ensures "SETUP response carried no Session" != MALFORMED
  {
    var a, b, c := "source sent TEARDOWN", "source refused a request", "SETUP response carried no Session";
    var d := MALFORMED;
    assert a[0] != d[0] && b[0] != d[0] && c[0] != d[0];
  }

  /** Nothing the negotiation ends with is the report of bytes that do not parse. */
  lemma MessageReasons(cfg: Config, neg: State, m: Message, now: nat)
    ensures var acts := AfterMessage(cfg, neg, m, now).1;
      forall i :: 0 <= i < |acts| && acts[i].Teardown? ==> acts[i].reason != MALFORMED
  {
    hide Reply, Ask, Uri, TakeParameters, Parameters, CSeqOf, SessionOf;
    ReasonsDiffer();
  }

  lemma HandlerIsDiscreet(cfg: Config, now: nat)
    ensures Discreet(Handler(cfg, now))
  {
    forall s: Sink, m ensures Ended(MALFORMED) !in Handler(cfg, now)(s, m).1 {
      MessageReasons(cfg, s.neg, m, now);
      var (neg, acts) := AfterMessage(cfg, s.neg, m, now);
      ApplyReports(neg.chosen, s.playing, acts);
    }
  }

  /** The same of a session: division does not matter exactly when the heads fit. */
  lemma DivisionsAgreeExactlyWhen(cfg: Config, s: Sink, stream: string, now: nat)
    requires s.buf == "" && Whole(stream)
    ensures HeadsFit(stream) <==>
      forall chunks :: Concat(chunks) == stream ==> FeedAll(cfg, s, chunks, now) == AfterRtsp(cfg, s, stream, now)
  {
    HandlerBufFree(cfg, now);
    HandlerIsDiscreet(cfg, now);
    DivisionsAgree(Handler(cfg, now), s, stream);
  }

  lemma PrintedFeeds(f: (Sink, Message) -> (Sink, seq<Event>), s: Sink, ms: seq<Message>, chunks: seq<string>)
    requires BufFree(f) && Discreet(f)
    requires s.buf == "" && Concat(chunks) == Printed(ms) && forall i :: 0 <= i < |ms| ==> Sendable(ms[i])
    ensures FeedAllWith(f, s, chunks) == Fold(f, s, ReceivedAll(ms))
  {
    hide Parse, Fold, FeedWith, FeedAllWith, Sendable;
    var stream := Printed(ms);
    PrintedStream(ms);
    FittingNeverFails(stream);
    ManyFeedsAreOne(f, s, chunks);
    assert "" + stream == stream;
    FeedIs(f, s, stream, Take(stream));
    BufIdle(f, s, ReceivedAll(ms), "");
    assert s.(buf := "") == s;
    var evs := Fold(f, s, ReceivedAll(ms)).1;
    assert evs + [] == evs;
  }

  /** Legal messages printed one behind the other and cut anywhere reach the
      negotiation just as they were printed, in order, and leave nothing behind. */
  lemma DeliveredInAnyDivision(cfg: Config, s: Sink, ms: seq<Message>, chunks: seq<string>, now: nat)
    requires s.buf == "" && Concat(chunks) == Printed(ms) && forall i :: 0 <= i < |ms| ==> Sendable(ms[i])
    ensures FeedAll(cfg, s, chunks, now) == Fold(Handler(cfg, now), s, ReceivedAll(ms))
  {
    HandlerBufFree(cfg, now);
    HandlerIsDiscreet(cfg, now);
    PrintedFeeds(Handler(cfg, now), s, ms, chunks);
  }

  // ---- the playing gate -------------------------------------------------

  /** A PLAY request leaving, as the socket sees it. */
  predicate IsPlayText(e: Event) { e.SendRtsp? && "PLAY " <= e.text }

  /** An end that stops the media. */
  predicate IsStop(e: Event) { e.Ended? && e.reason != MALFORMED }

  predicate IsMedia(e: Event) { e.Video? || e.Audio? }

  /** Whether media may pass, read off the events alone: open from a PLAY to the
      next stop. */
  predicate Gate(before: bool, evs: seq<Event>) {
    if evs == [] then before
    else
      var e := evs[|evs| - 1];
      IsPlayText(e) || (!IsStop(e) && Gate(before, evs[..|evs| - 1]))
  }

  /** Media only where the gate is open. */
  predicate Guarded(before: bool, evs: seq<Event>) {
    forall i :: 0 <= i < |evs| && IsMedia(evs[i]) ==> Gate(before, evs[..i])
  }

  /** At most one PLAY, and none once `asked`. */
  predicate AsksOnce(asked: bool, evs: seq<Event>, asked': bool) {
    && (asked ==> asked')
    && (asked == asked' ==> forall i :: 0 <= i < |evs| ==> !IsPlayText(evs[i]))
    && (forall i, j :: 0 <= i < j < |evs| ==> !(IsPlayText(evs[i]) && IsPlayText(evs[j])))
  }

  /** What a piece of a session keeps: the flag is what the events say, media is
      guarded, and PLAY goes out once, when the source's session becomes known. */
  predicate Kept(s: Sink, evs: seq<Event>, s': Sink) {
    && s'.playing == Gate(s.playing, evs)
    && Guarded(s.playing, evs)
    && AsksOnce(s.neg.peerSession.Some?, evs, s'.neg.peerSession.Some?)
  }

  lemma {:induction false} GateAppend(before: bool, a: seq<Event>, b: seq<Event>)
    ensures Gate(before, a + b) == Gate(Gate(before, a), b)
  {
    if b == [] {
      assert a + b == a;
    } else {
      GateAppend(before, a, b[..|b| - 1]);
      assert (a + b)[..|a + b| - 1] == a + b[..|b| - 1];
    }
  }

  lemma GuardedAppend(before: bool, a: seq<Event>, b: seq<Event>)
    requires Guarded(before, a) && Guarded(Gate(before, a), b)
    ensures Guarded(before, a + b)
  {
    var all := a + b;
    forall i | 0 <= i < |all| && IsMedia(all[i]) ensures Gate(before, all[..i]) {
      if i < |a| {
        assert all[..i] == a[..i];
      } else {
        assert all[..i] == a + b[..i - |a|];
        GateAppend(before, a, b[..i - |a|]);
      }
    }
  }

  lemma AsksOnceAppend(p: bool, a: seq<Event>, q: bool, b: seq<Event>, r: bool)
    requires AsksOnce(p, a, q) && AsksOnce(q, b, r)
    ensures AsksOnce(p, a + b, r)
  {
  }

  lemma KeptAppend(s: Sink, a: seq<Event>, s1: Sink, b: seq<Event>, s2: Sink)
    requires Kept(s, a, s1) && Kept(s1, b, s2)
    ensures Kept(s, a + b, s2)
  {
    GateAppend(s.playing, a, b);
    GuardedAppend(s.playing, a, b);
    AsksOnceAppend(s.neg.peerSession.Some?, a, s1.neg.peerSession.Some?, b, s2.neg.peerSession.Some?);
  }

  // what is sent as text

  lemma FormatStarts(m: Message)
    ensures StartText(m.start) <= Format(m)
  {
    var x, ys := StartText(m.start), HeaderTexts(m.headers + ContentHeaders(m.body));
    TerminatedAppend([x], ys);
    assert [x][..0] == [];
    assert Terminated([x]) == "" + (x + CRLF) == x + CRLF;
  }

  lemma StartOf(m: Message)
    ensures var t := StartText(m.start);
      m.start.Request? ==> m.start.method_ + [' '] <= t
    ensures m.start.Response? ==> "RTSP/1.0 " <= StartText(m.start)
  {
  }

  /** Of all we send, only a PLAY request begins like one. */
  lemma PlayText(m: Message)
    requires m.start.Request? ==> NegotiationRuns.OwnVerb(m.start.method_)
    ensures IsPlayText(SendRtsp(Format(m))) <==> m.start.Request? && m.start.method_ == "PLAY"
  {
    FormatStarts(m);
    StartOf(m);
    var t := StartText(m.start);
    var text := Format(m);
    assert text[..|t|] == t;
    if m.start.Request? {
      var verb := m.start.method_;
      assert t[..|verb| + 1] == verb + [' '];
      assert verb == "PLAY" ==> verb + [' '] == "PLAY ";
      assert text[0] == verb[0];
    } else {
      assert text[0] == 'R';
    }
  }

  // each piece keeps it

  /** Actions that neither play nor end the session the way bad bytes do. */
  predicate Quiet(a: Action) {
    && !a.Play? && !NegotiationRuns.Asks(a, "PLAY") && (a.Teardown? ==> a.reason != MALFORMED)
    && (NegotiationRuns.IsAsk(a) ==> NegotiationRuns.OwnVerb(a.msg.start.method_))
  }

  predicate AllQuiet(acts: seq<Action>) { forall i :: 0 <= i < |acts| ==> Quiet(acts[i]) }

  predicate Unmarked(evs: seq<Event>) { forall i :: 0 <= i < |evs| ==> !IsPlayText(evs[i]) && !IsMedia(evs[i]) }

  lemma QuietOne(chosen: Option<VideoMode>, playing: bool, a: Action) returns (e: Event)
    requires Quiet(a)
    ensures ApplyOne(chosen, playing, a) == (playing && !IsStop(e), [e]) && !IsPlayText(e) && !IsMedia(e)
  {
    e := ApplyOne(chosen, playing, a).1[0];
    if a.Send? { PlayText(a.msg); }
  }

  lemma {:induction false} QuietActs(chosen: Option<VideoMode>, playing: bool, acts: seq<Action>)
    requires AllQuiet(acts)
    ensures var (p, evs) := Apply(chosen, playing, acts); p == Gate(playing, evs) && Unmarked(evs)
  {
    if acts != [] {
      var front := acts[..|acts| - 1];
      QuietActs(chosen, playing, front);
      var (p, evs) := Apply(chosen, playing, front);
      var e := QuietOne(chosen, p, acts[|acts| - 1]);
      GateSnoc(playing, evs, e);
    }
  }

  lemma GateSnoc(before: bool, evs: seq<Event>, e: Event)
    ensures Gate(before, evs + [e]) == (IsPlayText(e) || (!IsStop(e) && Gate(before, evs)))
  {
    assert (evs + [e])[..|evs|] == evs;
  }

  /** The two actions that start the media. */
  lemma StartingActs(chosen: Option<VideoMode>, playing: bool, acts: seq<Action>)
    requires |acts| == 2 && NegotiationRuns.Asks(acts[0], "PLAY") && acts[1].Play?
    ensures var (p, evs) := Apply(chosen, playing, acts);
      && p && Gate(playing, evs) && |evs| > 0 && IsPlayText(evs[0]) && Unmarked(evs[1..])
      && |evs| <= 2
  {
    var text := SendRtsp(Format(acts[0].msg));
    PlayText(acts[0].msg);
    assert acts[..1][..0] == [] && acts == [acts[0], acts[1]];
    assert acts[..1] == [acts[0]] && Apply(chosen, playing, acts[..1]) == (playing, [] + [text]);
    assert [] + [text] == [text];
    GateSnoc(playing, [], text);
    if chosen.Some? { GateSnoc(playing, [text], Started(chosen.value)); }
  }

  lemma UnmarkedKept(s: Sink, evs: seq<Event>, s': Sink)
    requires s'.playing == Gate(s.playing, evs) && Unmarked(evs) && s'.neg.peerSession == s.neg.peerSession
    ensures Kept(s, evs, s')
  {
  }

  lemma StartingKeeps(s: Sink, neg: State, acts: seq<Action>)
    requires NegotiationRuns.Plays(s.neg, neg, acts, true) && s.neg.peerSession.None?
    ensures Kept(s, Acted(s, neg, acts).1, Acted(s, neg, acts).0)
  {
    hide Apply, Format;
    StartingActs(neg.chosen, s.playing, acts);
    var evs := Acted(s, neg, acts).1;
    assert |evs| == 2 ==> evs[1] == evs[1..][0];
  }

  lemma EffectIsQuiet(neg: State, neg': State, acts: seq<Action>, op: NegotiationRuns.Op)
    requires NegotiationRuns.Effect(neg, neg', acts, op) && !NegotiationRuns.Starts(neg, op)
    requires forall i :: 0 <= i < |acts| && acts[i].Teardown? ==> acts[i].reason != MALFORMED
    ensures AllQuiet(acts) && neg'.peerSession == neg.peerSession
  {
  }

  lemma QuietKeeps(s: Sink, neg: State, acts: seq<Action>)
    requires AllQuiet(acts) && neg.peerSession == s.neg.peerSession
    ensures Kept(s, Acted(s, neg, acts).1, Acted(s, neg, acts).0)
  {
    hide Apply, AllQuiet, Kept;
    QuietActs(neg.chosen, s.playing, acts);
    UnmarkedKept(s, Acted(s, neg, acts).1, Acted(s, neg, acts).0);
  }

  /** Carrying out what the negotiation asks for keeps it. */
  lemma ActedKeeps(s: Sink, neg: State, acts: seq<Action>, op: NegotiationRuns.Op)
    requires NegotiationRuns.Effect(s.neg, neg, acts, op)
    requires forall i :: 0 <= i < |acts| && acts[i].Teardown? ==> acts[i].reason != MALFORMED
    ensures Kept(s, Acted(s, neg, acts).1, Acted(s, neg, acts).0)
  {
    hide Kept, Acted, Quiet;
    hide NegotiationRuns.Numbers, NegotiationRuns.Plays, NegotiationRuns.Paces, NegotiationRuns.SetupAnswer;
    if NegotiationRuns.Starts(s.neg, op) {
      StartingKeeps(s, neg, acts);
    } else {
      EffectIsQuiet(s.neg, neg, acts, op);
      QuietKeeps(s, neg, acts);
    }
  }

  lemma NothingKept(s: Sink, s': Sink)
    requires s'.playing == s.playing && s'.neg.peerSession == s.neg.peerSession
    ensures Kept(s, [], s')
  {
  }

  lemma HandleKeeps(cfg: Config, s: Sink, m: Message, now: nat)
    ensures Kept(s, Handle(cfg, s, m, now).1, Handle(cfg, s, m, now).0)
  {
    MessageReasons(cfg, s.neg, m, now);
    NegotiationRuns.MessageEffect(cfg, s.neg, m, now);
    ActedKeeps(s, AfterMessage(cfg, s.neg, m, now).0, AfterMessage(cfg, s.neg, m, now).1, NegotiationRuns.Hear(m, now));
  }

  ghost predicate Keeps(f: (Sink, Message) -> (Sink, seq<Event>)) { forall s, m :: Kept(s, f(s, m).1, f(s, m).0) }

  lemma {:induction false} FoldKeeps(f: (Sink, Message) -> (Sink, seq<Event>), s: Sink, ms: seq<Message>)
    requires Keeps(f)
    ensures Kept(s, Fold(f, s, ms).1, Fold(f, s, ms).0)
    decreases |ms|
  {
    if ms == [] {
      NothingKept(s, s);
    } else {
      var (s1, e1) := f(s, ms[0]);
      FoldKeeps(f, s1, ms[1..]);
      var (s2, e2) := Fold(f, s1, ms[1..]);
      KeptAppend(s, e1, s1, e2, s2);
    }
  }

  lemma ReportKept(s: Sink, failed: bool, s': Sink)
    requires s'.playing == s.playing && s'.neg == s.neg
    ensures Kept(s, Report(failed), s')
  {
    GateSnoc(s.playing, [], Ended(MALFORMED));
    assert [] + [Ended(MALFORMED)] == [Ended(MALFORMED)];
    UnmarkedKept(s, Report(failed), s');
  }

  lemma FeedKeeps(f: (Sink, Message) -> (Sink, seq<Event>), s: Sink, bytes: string)
    requires BufFree(f) && Keeps(f)
    ensures Kept(s, FeedWith(f, s, bytes).1, FeedWith(f, s, bytes).0)
  {
    var t := Take(s.buf + bytes);
    FeedIs(f, s, bytes, t);
    FoldKeeps(f, s, t.msgs);
    var (h, evs) := Fold(f, s, t.msgs);
    ReportKept(h, t.failed, h.(buf := t.rest));
    KeptAppend(s, evs, h, Report(t.failed), h.(buf := t.rest));
  }

  lemma RtspKeeps(cfg: Config, s: Sink, bytes: string, now: nat)
    ensures Kept(s, AfterRtsp(cfg, s, bytes, now).1, AfterRtsp(cfg, s, bytes, now).0)
  {
    HandlerBufFree(cfg, now);
    forall x: Sink, m ensures Kept(x, Handler(cfg, now)(x, m).1, Handler(cfg, now)(x, m).0) {
      HandleKeeps(cfg, x, m, now);
    }
    FeedKeeps(Handler(cfg, now), s, bytes);
  }

  lemma KeyframeKeeps(cfg: Config, s: Sink, now: nat)
    ensures Kept(s, KeyframeWish(cfg, s, now).1, KeyframeWish(cfg, s, now).0)
  {
    NegotiationRuns.WishEffect(cfg, s.neg, 0, now);
    var (neg, acts) := AfterKeyframeWish(cfg, s.neg, now);
    ActedKeeps(s, neg, acts, NegotiationRuns.WantKeyframe(now));
  }

  lemma BitrateKeeps(cfg: Config, s: Sink, now: nat)
    ensures Kept(s, BitrateWish(cfg, s, now).1, BitrateWish(cfg, s, now).0)
  {
    var (l, kbps) := Ladder.AfterSample(s.ladder, Lost(s), now);
    var sampled := s.(ladder := l);
    if kbps.Some? {
      NegotiationRuns.WishEffect(cfg, s.neg, kbps.value, 0);
      var (neg, acts) := AfterBitrateWish(cfg, s.neg, kbps.value);
      ActedKeeps(sampled, neg, acts, NegotiationRuns.WantBitrate(kbps.value, 0));
    } else {
      NothingKept(s, sampled);
    }
  }

  /** Media events leave an open gate open. */
  lemma {:induction false} MediaPasses(evs: seq<Event>)
    requires forall i :: 0 <= i < |evs| ==> IsMedia(evs[i])
    ensures Gate(true, evs) && Guarded(true, evs)
  {
    if evs != [] { MediaPasses(evs[..|evs| - 1]); }
    forall i | 0 <= i < |evs| ensures Gate(true, evs[..i]) {
      if i < |evs| - 1 { assert evs[..|evs| - 1][..i] == evs[..i]; }
    }
  }

  lemma MediaKept(s: Sink, evs: seq<Event>, s': Sink)
    requires s.playing && s'.playing && s'.neg == s.neg && forall i :: 0 <= i < |evs| ==> IsMedia(evs[i])
    ensures Kept(s, evs, s')
  {
    MediaPasses(evs);
  }

  lemma DatagramKeeps(cfg: Config, s: Sink, bytes: seq<u8>, now: nat)
    ensures Kept(s, AfterDatagram(cfg, s, bytes, now).1, AfterDatagram(cfg, s, bytes, now).0)
  {
    var p := Rtp.Parse(bytes);
    if !s.playing || p.None? || p.value.payloadType != Rtp.PAYLOAD_TYPE {
      NothingKept(s, s);
    } else {
      var (s1, e1) := AfterMedia(s, p.value, now);
      MediaKept(s, e1, s1);
      var (s2, e2) := LossWish(cfg, s1, now);
      LossKeeps(cfg, s1, now);
      BitrateKeeps(cfg, s2, now);
      var (s3, e3) := BitrateWish(cfg, s2, now);
      KeptAppend(s, e1, s1, e2, s2);
      KeptAppend(s, e1 + e2, s2, e3, s3);
    }
  }

  lemma LossKeeps(cfg: Config, s: Sink, now: nat)
    ensures Kept(s, LossWish(cfg, s, now).1, LossWish(cfg, s, now).0)
  {
    NothingKept(s, s);
    KeyframeKeeps(cfg, s.(lostSeen := Lost(s)), now);
  }

  lemma SilenceKeeps(s: Sink)
    requires s.playing
    ensures Kept(s, [Ended("no media for 2 s")], s.(playing := false))
  {
    var silent := "no media for 2 s";
    assert silent[0] != MALFORMED[0];
    GateSnoc(true, [], Ended(silent));
    assert [] + [Ended(silent)] == [Ended(silent)];
    UnmarkedKept(s, [Ended(silent)], s.(playing := false));
  }

  lemma TickReasons(cfg: Config, neg: State, now: nat)
    ensures var acts := AfterTick(cfg, neg, now).1;
      forall i :: 0 <= i < |acts| && acts[i].Teardown? ==> acts[i].reason != MALFORMED
  {
    var lost := "no keep-alive reply for 10 s";
    assert lost[0] != MALFORMED[0];
  }

  lemma TickKeeps(cfg: Config, s: Sink, now: nat)
    ensures Kept(s, AfterSessionTick(cfg, s, now).1, AfterSessionTick(cfg, s, now).0)
  {
    hide Kept, BitrateWish, AfterTick, Acted;
    if s.playing && AtLeast(s.lastMedia, now, MEDIA_SILENCE + 1) {
      SilenceKeeps(s);
    } else {
      var (s1, e1) := BitrateWish(cfg, s, now);
      BitrateKeeps(cfg, s, now);
      NegotiationRuns.TickEffect(cfg, s1.neg, now);
      var (neg, acts) := AfterTick(cfg, s1.neg, now);
      TickReasons(cfg, s1.neg, now);
      ActedKeeps(s1, neg, acts, NegotiationRuns.Clock(now));
      var (s2, e2) := Acted(s1, neg, acts);
      KeptAppend(s, e1, s1, e2, s2);
    }
  }

  // ---- whole sessions ---------------------------------------------------

  datatype Op =
    | RtspBytes(bytes: string, now: nat)
    | Datagram(data: seq<u8>, now: nat)
    | Tick(now: nat)
    | DecodeError(now: nat)

  function Step(cfg: Config, s: Sink, op: Op): (Sink, seq<Event>) {
    match op
    case RtspBytes(bytes, now) => AfterRtsp(cfg, s, bytes, now)
    case Datagram(data, now) => AfterDatagram(cfg, s, data, now)
    case Tick(now) => AfterSessionTick(cfg, s, now)
    case DecodeError(now) => KeyframeWish(cfg, s, now)
  }

  function Run(cfg: Config, ops: seq<Op>): (Sink, seq<Event>) {
    if ops == [] then (START, [])
    else
      var (s, log) := Run(cfg, ops[..|ops| - 1]);
      var (s', evs) := Step(cfg, s, ops[|ops| - 1]);
      (s', log + evs)
  }

  lemma StepKeeps(cfg: Config, s: Sink, op: Op)
    ensures Kept(s, Step(cfg, s, op).1, Step(cfg, s, op).0)
  {
    match op
    case RtspBytes(bytes, now) => RtspKeeps(cfg, s, bytes, now);
    case Datagram(data, now) => DatagramKeeps(cfg, s, data, now);
    case Tick(now) => TickKeeps(cfg, s, now);
    case DecodeError(now) => KeyframeKeeps(cfg, s, now);
  }

  lemma {:induction false} RunKeeps(cfg: Config, ops: seq<Op>)
    ensures Kept(START, Run(cfg, ops).1, Run(cfg, ops).0)
  {
    if ops == [] {
      NothingKept(START, START);
    } else {
      RunKeeps(cfg, ops[..|ops| - 1]);
      var (s, log) := Run(cfg, ops[..|ops| - 1]);
      StepKeeps(cfg, s, ops[|ops| - 1]);
      var (s', evs) := Step(cfg, s, ops[|ops| - 1]);
      KeptAppend(START, log, s, evs, s');
    }
  }

  /** Where an open gate was opened. */
  lemma {:induction false} GateOpened(evs: seq<Event>) returns (p: nat)
    requires Gate(false, evs)
    ensures p < |evs| && IsPlayText(evs[p]) && forall j :: p < j < |evs| ==> !IsStop(evs[j])
  {
    var k := |evs| - 1;
    if IsPlayText(evs[k]) {
      p := k;
    } else {
      p := GateOpened(evs[..k]);
      assert forall j :: p < j < k ==> evs[j] == evs[..k][j];
    }
  }

  /** In every session, whatever arrives: media passes only behind our PLAY request,
      the only one of the session, with no end in between except the report of bytes
      that do not parse; and the flag is open exactly when the events say so. */
  lemma NoMediaBeforePlay(cfg: Config, ops: seq<Op>)
    ensures var (s, log) := Run(cfg, ops);
      && s.playing == Gate(false, log)
      && (forall i, j :: 0 <= i < j < |log| ==> !(IsPlayText(log[i]) && IsPlayText(log[j])))
      && forall i :: 0 <= i < |log| && IsMedia(log[i]) ==>
           exists p :: 0 <= p < i && IsPlayText(log[p]) && forall j :: p < j < i ==> !IsStop(log[j])
  {
    RunKeeps(cfg, ops);
    MediaBehindPlay(Run(cfg, ops).1);
  }

  lemma MediaBehindPlay(log: seq<Event>)
    requires Guarded(false, log)
    ensures forall i :: 0 <= i < |log| && IsMedia(log[i]) ==>
      exists p :: 0 <= p < i && IsPlayText(log[p]) && forall j :: p < j < i ==> !IsStop(log[j])
  {
    forall i | 0 <= i < |log| && IsMedia(log[i])
      ensures exists p :: 0 <= p < i && IsPlayText(log[p]) && forall j :: p < j < i ==> !IsStop(log[j])
    {
      var p := GateOpened(log[..i]);
      assert IsPlayText(log[p]);
      forall j | p < j < i ensures !IsStop(log[j]) { assert log[j] == log[..i][j]; }
    }
  }
}
