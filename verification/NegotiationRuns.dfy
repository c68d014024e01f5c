/** What the negotiation keeps over every run, whatever the source sends and whenever
    the clock and the decoder call it. */
module NegotiationRuns {
  import opened Common
  import opened Text
  import opened Rtsp
  import opened Negotiation

  datatype Op =
    | Hear(m: Message, now: nat)
    | Clock(now: nat)
    | WantBitrate(kbps: u32, now: nat)
    | WantKeyframe(now: nat)

  function Step(cfg: Config, s: State, op: Op): (State, seq<Action>) {
    match op
    case Hear(m, now) => AfterMessage(cfg, s, m, now)
    case Clock(now) => AfterTick(cfg, s, now)
    case WantBitrate(kbps, _) => AfterBitrateWish(cfg, s, kbps)
    case WantKeyframe(now) => AfterKeyframeWish(cfg, s, now)
  }

  /** An action, the call that caused it and the time of that call. */
  datatype Entry = Entry(cause: nat, now: nat, action: Action)

  function Stamp(cause: nat, now: nat, actions: seq<Action>): seq<Entry> {
    seq(|actions|, i requires 0 <= i < |actions| => Entry(cause, now, actions[i]))
  }

  /** The state and everything done so far. */
  function Run(cfg: Config, ops: seq<Op>): (State, seq<Entry>) {
    if ops == [] then (FRESH, [])
    else
      var k := |ops| - 1;
      var (s, log) := Run(cfg, ops[..k]);
      var (s', done) := Step(cfg, s, ops[k]);
      (s', log + Stamp(k, ops[k].now, done))
  }

  // ---- picking entries out of a log -------------------------------------

  predicate IsAsk(a: Action) { a.Send? && a.msg.start.Request? }
  predicate Asks(a: Action, verb: string) { IsAsk(a) && a.msg.start.method_ == verb }
  predicate IsSetup(a: Action) { Asks(a, "SETUP") }
  predicate IsPlay(a: Action) { a.Play? }
  predicate IsKeepAlive(a: Action) { Asks(a, "GET_PARAMETER") }
  predicate IsKeyframeAsk(a: Action) { Asks(a, "SET_PARAMETER") && a.msg.body == IDR_REQUEST }

  /** The entries whose action is of a kind, in order. */
  function Pick(log: seq<Entry>, p: Action -> bool): (r: seq<Entry>)
    ensures forall i :: 0 <= i < |r| ==> p(r[i].action)
  {
    if log == [] then []
    else
      var front, e := Pick(log[..|log| - 1], p), log[|log| - 1];
      if p(e.action) then front + [e] else front
  }

  lemma {:induction false} PickAppend(a: seq<Entry>, b: seq<Entry>, p: Action -> bool)
    ensures Pick(a + b, p) == Pick(a, p) + Pick(b, p)
  {
    if b == [] {
      assert a + b == a;
    } else {
      PickAppend(a, b[..|b| - 1], p);
      assert (a + b)[..|a + b| - 1] == a + b[..|b| - 1];
    }
  }

  lemma PickOne(a: Entry, p: Action -> bool)
    ensures Pick([a], p) == if p(a.action) then [a] else []
  {
    assert [a][..0] == [];
  }

  /** The `i`-th action of a step, when it is of a kind. */
  function If(cause: nat, now: nat, acts: seq<Action>, i: nat, p: Action -> bool): seq<Entry> {
    if i < |acts| && p(acts[i]) then [Entry(cause, now, acts[i])] else []
  }

  /** What is picked from the one or two actions of a step. */
  lemma PickStamped(cause: nat, now: nat, acts: seq<Action>, p: Action -> bool)
    requires |acts| <= 2
    ensures Pick(Stamp(cause, now, acts), p) == If(cause, now, acts, 0, p) + If(cause, now, acts, 1, p)
  {
    var es := Stamp(cause, now, acts);
    if |acts| == 0 {
      assert es == [];
    } else if |acts| == 1 {
      assert es == [es[0]];
      PickOne(es[0], p);
    } else {
      assert es == [es[0]] + [es[1]];
      PickAppend([es[0]], [es[1]], p);
      PickOne(es[0], p);
      PickOne(es[1], p);
    }
  }

  // ---- what one call does -----------------------------------------------

  function CSeqText(m: Message): Option<string> { HeaderOf(m.headers, "cseq") }

  predicate OwnVerb(verb: string) { verb in {"OPTIONS", "SETUP", "PLAY", "GET_PARAMETER", "SET_PARAMETER"} }

  /** At most one request goes out, under the next number, which is then used up. */
  predicate Numbers(s: State, s': State, acts: seq<Action>) {
    && |acts| <= 2
    && !(|acts| == 2 && IsAsk(acts[0]) && IsAsk(acts[1]))
    && s'.nextCseq == s.nextCseq + (if (|acts| > 0 && IsAsk(acts[0])) || (|acts| > 1 && IsAsk(acts[1])) then 1 else 0)
    && forall i :: 0 <= i < |acts| && IsAsk(acts[i]) ==>
         OwnVerb(acts[i].msg.start.method_) && CSeqText(acts[i].msg) == Some(Decimal(s.nextCseq))
  }

  /** A 200 that names a session. */
  predicate SetupAnswer(op: Op) {
    op.Hear? && op.m.start.Response? && op.m.start.status == 200 && SessionOf(op.m).Some?
  }

  /** Exactly which input starts the media. */
  predicate Starts(s: State, op: Op) { SetupAnswer(op) && s.phase.Ready? && s.peerSession.None? }

  /** The media starts, behind our PLAY naming the source's session; or it does not. */
  predicate Plays(s: State, s': State, acts: seq<Action>, starts: bool) {
    && (starts ==> |acts| == 2 && Asks(acts[0], "PLAY") && acts[1].Play? && s'.peerSession.Some?
                   && acts[0].msg.headers == [("CSeq", Decimal(s.nextCseq)), ("Session", s'.peerSession.value)])
    && (!starts ==>
          s'.peerSession == s.peerSession
          && forall i :: 0 <= i < |acts| ==> !acts[i].Play? && !Asks(acts[i], "PLAY"))
    && (s'.phase.Ready? ==> s.phase.Ready? || (|acts| == 2 && IsSetup(acts[1])))
  }

  /** A timer is left alone and nothing of its kind goes out, or one does, late
      enough after the last. */
  predicate Paced(last: Option<nat>, last': Option<nat>, acts: seq<Action>, now: nat, gap: nat, p: Action -> bool) {
    || (last' == last && forall i :: 0 <= i < |acts| ==> !p(acts[i]))
    || (last' == Some(now) && |acts| == 1 && p(acts[0]) && (last.Some? ==> last.value + gap <= now))
  }

  predicate Paces(s: State, s': State, acts: seq<Action>, now: nat) {
    && Paced(s.lastIdr, s'.lastIdr, acts, now, IDR_MIN_INTERVAL, IsKeyframeAsk)
    && Paced(s.lastKeepalive, s'.lastKeepalive, acts, now, KEEPALIVE_EVERY, IsKeepAlive)
  }

  lemma CSeqName()
    ensures SameIgnoringCase("CSeq", "cseq")
  {
    var a, b := "CSeq", "cseq";
    assert Lower(a[0]) == b[0] && Lower(a[1]) == b[1];
  }

  lemma AskNumbered(cseq: nat, verb: string, uri: string, extra: Headers, body: string)
    ensures CSeqText(Ask(cseq, verb, uri, extra, body)) == Some(Decimal(cseq))
  {
    CSeqName();
  }

  lemma {:induction false} TakeKeeps(r: Reading, ps: seq<(string, string)>)
    ensures var s' := TakeParameters(r, ps).s;
      && s'.nextCseq == r.s.nextCseq && s'.phase == r.s.phase && s'.peerSession == r.s.peerSession
      && s'.lastHeard == r.s.lastHeard && s'.lastKeepalive == r.s.lastKeepalive && s'.lastIdr == r.s.lastIdr
  {
    if ps != [] { TakeKeeps(r, ps[..|ps| - 1]); }
  }

  /** One request and nothing else that matters. */
  lemma OneAsk(s: State, s': State, acts: seq<Action>, at: nat, verb: string, uri: string, extra: Headers, body: string)
    requires OwnVerb(verb) && |acts| <= 2 && at < |acts| && acts[at] == Send(Ask(s.nextCseq, verb, uri, extra, body))
    requires s'.nextCseq == s.nextCseq + 1 && forall i :: 0 <= i < |acts| && i != at ==> !IsAsk(acts[i])
    ensures Numbers(s, s', acts)
  {
    AskNumbered(s.nextCseq, verb, uri, extra, body);
    assert IsAsk(acts[at]);
  }

  lemma SetParameterEffect(cfg: Config, s: State, cseq: nat, m: Message, now: nat)
    ensures var (s', acts) := AfterSetParameter(cfg, s, cseq, m);
      Numbers(s, s', acts) && Plays(s, s', acts, false) && Paces(s, s', acts, now)
  {
    var ps := Parameters(SplitOn(m.body, '\n'));
    var r := TakeParameters(Reading(s, None, false), ps);
    var (s', acts) := AfterSetParameter(cfg, s, cseq, m);
    TakeKeeps(Reading(s, None, false), ps);
    if !r.refused && r.trigger == Some("SETUP") {
      var transport := ("Transport", "RTP/AVP/UDP;unicast;client_port=" + Decimal(cfg.rtpPort));
      OneAsk(s, s', acts, 1, "SETUP", Uri(cfg, r.s), [transport], "");
    }
  }

  lemma RequestEffect(cfg: Config, s: State, verb: string, m: Message, now: nat)
    ensures var (s', acts) := AfterRequest(cfg, s, verb, m);
      Numbers(s, s', acts) && Plays(s, s', acts, false) && Paces(s, s', acts, now)
  {
    var (s', acts) := AfterRequest(cfg, s, verb, m);
    if verb == "OPTIONS" {
      OneAsk(s, s', acts, 1, "OPTIONS", "*", [("Require", "org.wfa.wfd1.0")], "");
    } else if verb == "SET_PARAMETER" {
      SetParameterEffect(cfg, s, CSeqOf(m), m, now);
    }
  }

  lemma ResponseEffect(cfg: Config, s: State, status: u16, m: Message, now: nat)
    ensures var (s', acts) := AfterResponse(cfg, s, status, m);
      Numbers(s, s', acts) && Paces(s, s', acts, now)
      && Plays(s, s', acts, status == 200 && SessionOf(m).Some? && s.phase.Ready? && s.peerSession.None?)
  {
    var (s', acts) := AfterResponse(cfg, s, status, m);
    if status == 200 && SessionOf(m).Some? && s.phase.Ready? && s.peerSession.None? {
      OneAsk(s, s', acts, 0, "PLAY", Uri(cfg, s), SessionHeader(SessionOf(m)), "");
    }
  }

  lemma TickEffect(cfg: Config, s: State, now: nat)
    ensures var (s', acts) := AfterTick(cfg, s, now);
      Numbers(s, s', acts) && Plays(s, s', acts, false) && Paces(s, s', acts, now)
  {
    var (s', acts) := AfterTick(cfg, s, now);
    if |acts| == 1 && acts[0].Send? {
      OneAsk(s, s', acts, 0, "GET_PARAMETER", Uri(cfg, s), SessionHeader(s.peerSession), "");
    }
  }

  lemma BitrateIsNoIdr(kbps: nat)
    ensures "microsoft_max_bitrate: " + Decimal(kbps) + CRLF != IDR_REQUEST
  {
    var a, b := "microsoft_max_bitrate: ", IDR_REQUEST;
    assert a[0] != b[0];
    assert (a + Decimal(kbps) + CRLF)[0] == a[0];
  }

  lemma WishEffect(cfg: Config, s: State, kbps: u32, now: nat)
    ensures var (s', acts) := AfterBitrateWish(cfg, s, kbps);
      Numbers(s, s', acts) && Plays(s, s', acts, false) && Paces(s, s', acts, now)
    ensures var (s', acts) := AfterKeyframeWish(cfg, s, now);
      Numbers(s, s', acts) && Plays(s, s', acts, false) && Paces(s, s', acts, now)
  {
    var body := "microsoft_max_bitrate: " + Decimal(kbps) + CRLF;
    BitrateIsNoIdr(kbps);
    var (s1, acts1) := AfterBitrateWish(cfg, s, kbps);
    if acts1 != [] { OneAsk(s, s1, acts1, 0, "SET_PARAMETER", Uri(cfg, s), SessionHeader(s.peerSession), body); }
    var (s2, acts2) := AfterKeyframeWish(cfg, s, now);
    if acts2 != [] { OneAsk(s, s2, acts2, 0, "SET_PARAMETER", Uri(cfg, s), SessionHeader(s.peerSession), IDR_REQUEST); }
  }

  predicate Effect(s: State, s': State, acts: seq<Action>, op: Op) {
    Numbers(s, s', acts) && Plays(s, s', acts, Starts(s, op)) && Paces(s, s', acts, op.now)
  }

  lemma MessageEffect(cfg: Config, s: State, m: Message, now: nat)
    ensures var (s', acts) := AfterMessage(cfg, s, m, now); Effect(s, s', acts, Hear(m, now))
  {
    match m.start
    case Request(verb, _) => RequestEffect(cfg, s.(lastHeard := Some(now)), verb, m, now);
    case Response(status, _) => ResponseEffect(cfg, s.(lastHeard := Some(now)), status, m, now);
  }

  lemma StepEffect(cfg: Config, s: State, op: Op) returns (s': State, acts: seq<Action>)
    ensures (s', acts) == Step(cfg, s, op) && Effect(s, s', acts, op)
  {
    s', acts := Step(cfg, s, op).0, Step(cfg, s, op).1;
    match op
    case Hear(m, now) => MessageEffect(cfg, s, m, now);
    case Clock(now) => TickEffect(cfg, s, now);
    case WantBitrate(kbps, now) => WishEffect(cfg, s, kbps, now);
    case WantKeyframe(now) => WishEffect(cfg, s, 0, now);
  }

  // ---- request numbers --------------------------------------------------

  /** Consecutive numbers from `from` on. */
  predicate Numbered(asks: seq<Entry>, from: nat) {
    forall i :: 0 <= i < |asks| ==> IsAsk(asks[i].action) && CSeqText(asks[i].action.msg) == Some(Decimal(from + i))
  }

  lemma NumbersPicked(s: State, s': State, acts: seq<Action>, k: nat, now: nat)
    requires Numbers(s, s', acts)
    ensures var asks := Pick(Stamp(k, now, acts), IsAsk);
      s'.nextCseq == s.nextCseq + |asks| && Numbered(asks, s.nextCseq)
  {
    PickStamped(k, now, acts, IsAsk);
  }

  lemma NumberedAppend(a: seq<Entry>, b: seq<Entry>, from: nat)
    requires Numbered(a, from) && Numbered(b, from + |a|)
    ensures Numbered(a + b, from)
  {
  }

  /** Our own requests carry 100, 101, 102 and so on, without a gap or a repeat,
      whichever part of the session sends them. */
  lemma {:induction false} RequestsAreNumbered(cfg: Config, ops: seq<Op>)
    ensures var (s, log) := Run(cfg, ops);
      Numbered(Pick(log, IsAsk), FIRST_CSEQ) && s.nextCseq == FIRST_CSEQ + |Pick(log, IsAsk)|
  {
    if ops != [] {
      var k := |ops| - 1;
      RequestsAreNumbered(cfg, ops[..k]);
      var (s, log) := Run(cfg, ops[..k]);
      var s', acts := StepEffect(cfg, s, ops[k]);
      var more := Stamp(k, ops[k].now, acts);
      NumbersPicked(s, s', acts, k, ops[k].now);
      PickAppend(log, more, IsAsk);
      NumberedAppend(Pick(log, IsAsk), Pick(more, IsAsk), FIRST_CSEQ);
    }
  }

  /** So no two of them share a number. */
  lemma NumbersDiffer(asks: seq<Entry>, from: nat, i: nat, j: nat)
    requires Numbered(asks, from) && i < j < |asks|
    ensures CSeqText(asks[i].action.msg) != CSeqText(asks[j].action.msg)
  {
    if Decimal(from + i) == Decimal(from + j) { DecimalInjective(from + i, from + j); }
  }

  // ---- play -------------------------------------------------------------

  /** Where a Play stands in a log: a SETUP of ours is behind it, the request right
      before it is our PLAY, and the call that caused it brought the answer. */
  predicate WellPlaced(ops: seq<Op>, log: seq<Entry>, i: nat)
    requires i < |log|
  {
    && 0 < i && Asks(log[i - 1].action, "PLAY") && (exists j :: 0 <= j < i && IsSetup(log[j].action))
    && log[i].cause < |ops| && SetupAnswer(ops[log[i].cause])
  }

  predicate PlayInv(ops: seq<Op>, s: State, log: seq<Entry>) {
    && |Pick(log, IsPlay)| == (if s.peerSession.Some? then 1 else 0)
    && (s.phase.Ready? ==> exists j :: 0 <= j < |log| && IsSetup(log[j].action))
    && forall i :: 0 <= i < |log| && IsPlay(log[i].action) ==> WellPlaced(ops, log, i)
  }

  lemma WellPlacedLater(ops: seq<Op>, op: Op, log: seq<Entry>, more: seq<Entry>, i: nat)
    requires i < |log| && WellPlaced(ops, log, i)
    ensures WellPlaced(ops + [op], log + more, i)
  {
    var j :| 0 <= j < i && IsSetup(log[j].action);
    assert (log + more)[j] == log[j];
  }

  lemma PlayStep(ops: seq<Op>, s: State, log: seq<Entry>, op: Op, s': State, acts: seq<Action>)
    requires PlayInv(ops, s, log) && Effect(s, s', acts, op)
    ensures PlayInv(ops + [op], s', log + Stamp(|ops|, op.now, acts))
  {
    var more := Stamp(|ops|, op.now, acts);
    var log' := log + more;
    PickStamped(|ops|, op.now, acts, IsPlay);
    PickAppend(log, more, IsPlay);
    if s.phase.Ready? {
      var j :| 0 <= j < |log| && IsSetup(log[j].action);
      assert IsSetup(log'[j].action);
    } else if s'.phase.Ready? {
      assert IsSetup(log'[|log| + 1].action);
    }
    forall i | 0 <= i < |log'| && IsPlay(log'[i].action) ensures WellPlaced(ops + [op], log', i) {
      if i < |log| {
        WellPlacedLater(ops, op, log, more, i);
      } else {
        assert log'[i].action == acts[i - |log|];
        assert Starts(s, op) && i == |log| + 1 && log'[i - 1].action == acts[0];
      }
    }
  }

  lemma {:induction false} RunPlays(cfg: Config, ops: seq<Op>)
    ensures PlayInv(ops, Run(cfg, ops).0, Run(cfg, ops).1)
  {
    if ops != [] {
      var k := |ops| - 1;
      RunPlays(cfg, ops[..k]);
      var (s, log) := Run(cfg, ops[..k]);
      var s', acts := StepEffect(cfg, s, ops[k]);
      PlayStep(ops[..k], s, log, ops[k], s', acts);
      assert ops[..k] + [ops[k]] == ops;
    }
  }

  /** Play happens at most once in a run, and only once our SETUP has gone out and a
      200 naming a session has come in, right behind our PLAY request. */
  lemma PlayOnce(cfg: Config, ops: seq<Op>)
    ensures var log := Run(cfg, ops).1;
      |Pick(log, IsPlay)| <= 1 && forall i :: 0 <= i < |log| && IsPlay(log[i].action) ==> WellPlaced(ops, log, i)
  {
    RunPlays(cfg, ops);
  }

  // ---- pacing -----------------------------------------------------------

  /** Any two are at least `gap` apart. */
  predicate Spaced(es: seq<Entry>, gap: nat) {
    forall i, j :: 0 <= i < j < |es| ==> es[i].now + gap <= es[j].now
  }

  /** `last` is when the last of these went out. */
  predicate Tracks(last: Option<nat>, es: seq<Entry>) {
    if es == [] then last.None? else last == Some(es[|es| - 1].now)
  }

  lemma SpacedSnoc(es: seq<Entry>, e: Entry, gap: nat)
    requires Spaced(es, gap) && (es != [] ==> es[|es| - 1].now + gap <= e.now)
    ensures Spaced(es + [e], gap)
  {
  }

  lemma PacedPicked(last: Option<nat>, last': Option<nat>, log: seq<Entry>, k: nat, acts: seq<Action>, now: nat,
                    gap: nat, p: Action -> bool)
    requires |acts| <= 2 && Spaced(Pick(log, p), gap) && Tracks(last, Pick(log, p))
    requires Paced(last, last', acts, now, gap, p)
    ensures var all := Pick(log + Stamp(k, now, acts), p); Spaced(all, gap) && Tracks(last', all)
  {
    PickStamped(k, now, acts, p);
    PickAppend(log, Stamp(k, now, acts), p);
    if |acts| == 1 && p(acts[0]) {
      SpacedSnoc(Pick(log, p), Entry(k, now, acts[0]), gap);
    }
  }

  /** However often the decoder asks and the clock ticks, and even if the clock runs
      backwards, keyframe requests are at least 500 ms apart and keep-alives at
      least 5 s. */
  lemma {:induction false} RequestsArePaced(cfg: Config, ops: seq<Op>)
    ensures var (s, log) := Run(cfg, ops);
      && Spaced(Pick(log, IsKeyframeAsk), IDR_MIN_INTERVAL) && Tracks(s.lastIdr, Pick(log, IsKeyframeAsk))
      && Spaced(Pick(log, IsKeepAlive), KEEPALIVE_EVERY) && Tracks(s.lastKeepalive, Pick(log, IsKeepAlive))
  {
    if ops != [] {
      var k := |ops| - 1;
      RequestsArePaced(cfg, ops[..k]);
      var (s, log) := Run(cfg, ops[..k]);
      var s', acts := StepEffect(cfg, s, ops[k]);
      PacedPicked(s.lastIdr, s'.lastIdr, log, k, acts, ops[k].now, IDR_MIN_INTERVAL, IsKeyframeAsk);
      PacedPicked(s.lastKeepalive, s'.lastKeepalive, log, k, acts, ops[k].now, KEEPALIVE_EVERY, IsKeepAlive);
    }
  }
}
