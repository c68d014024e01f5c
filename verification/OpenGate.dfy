/** Bytes that do not parse end a session in name only: the media gate stays as it was. */
module OpenGate {
  import opened Common
  import opened Text
  import opened Rtsp
  import opened RtspStream
  import opened Negotiation
  import opened Session
  import opened SessionRuns

  lemma {:induction false} FailedEmpties(buf: string)
    requires Take(buf).failed
    ensures Take(buf).rest == ""
    decreases |buf|
  {
    if Holds(buf) { FailedEmpties(buf[Used(buf)..]); }
  }

  /** The messages in front of such bytes are handled; then the buffer is emptied, the
      end is reported, and nothing else changes. */
  lemma MalformedOnlyReports(cfg: Config, s: Sink, bytes: string, now: nat)
    requires Take(s.buf + bytes).failed
    ensures var (h, evs) := Fold(Handler(cfg, now), s, Take(s.buf + bytes).msgs);
      AfterRtsp(cfg, s, bytes, now) == (h.(buf := ""), evs + [Ended(MALFORMED)])
  {
    hide Take, Fold, FeedWith;
    var f := Handler(cfg, now);
    HandlerBufFree(cfg, now);
    FailedEmpties(s.buf + bytes);
    FeedIs(f, s, bytes, Take(s.buf + bytes));
  }

  lemma RunSnoc(cfg: Config, ops: seq<Op>, op: Op)
    ensures var (s, log) := Run(cfg, ops); var (s', evs) := Step(cfg, s, op); Run(cfg, ops + [op]) == (s', log + evs)
  {
    hide Step;
    assert (ops + [op])[..|ops|] == ops;
  }

  /** So whatever the session has been through, and whatever was buffered, the gate is
      afterwards what the messages handled left it: open if it was open. */
  lemma MalformedKeepsGate(cfg: Config, ops: seq<Op>, bytes: string, now: nat)
    requires Take(Run(cfg, ops).0.buf + bytes).failed
    ensures var (s, log) := Run(cfg, ops);
      var (h, evs) := Fold(Handler(cfg, now), s, Take(s.buf + bytes).msgs);
      && Run(cfg, ops + [RtspBytes(bytes, now)]) == (h.(buf := ""), log + evs + [Ended(MALFORMED)])
      && Gate(false, log + evs + [Ended(MALFORMED)]) == Gate(false, log + evs) == h.playing
  {
    hide Run, Take, Fold, Gate, AfterRtsp;
    var op := RtspBytes(bytes, now);
    var (s, log) := Run(cfg, ops);
    var (h, evs) := Fold(Handler(cfg, now), s, Take(s.buf + bytes).msgs);
    RunSnoc(cfg, ops, op);
    MalformedOnlyReports(cfg, s, bytes, now);
    Reassociate(log, evs, [Ended(MALFORMED)]);
    NoMediaBeforePlay(cfg, ops + [op]);
    ReportPasses(log + evs);
  }

  lemma ReportPasses(log: seq<Event>)
    ensures Gate(false, log + [Ended(MALFORMED)]) == Gate(false, log)
  {
    GateSnoc(false, log, Ended(MALFORMED));
  }

  // ---- a session that comes to it ---------------------------------------

  const TRIGGER := "wfd_trigger_method: SETUP"

  /** What a source says to start the media: the SETUP trigger and its answer to our
      SETUP. */
  const TRIGGER_MESSAGE := Message(Request("SET_PARAMETER", "*"), [], TRIGGER)
  const SETUP_ANSWER := Message(Response(200, "OK"), [("Session", "1")], "")

  /** One message in one piece is handled as it reads. */
  lemma OneMessage(cfg: Config, s: Sink, m: Message, now: nat)
    requires s.buf == "" && Sendable(m)
    ensures AfterRtsp(cfg, s, Format(m), now) == Handle(cfg, s, Received(m), now)
  {
    hide Format, Handle, Sendable, AfterRtsp;
    var text := Format(m);
    assert Printed([m]) == text + Printed([]) == text;
    assert Concat([text]) == text + Concat([]) == text;
    DeliveredInAnyDivision(cfg, s, [m], [text], now);
    FoldOne(FeederWith(Handler(cfg, now)), s, text);
    assert ReceivedAll([m]) == [Received(m)];
    FoldOne(Handler(cfg, now), s, Received(m));
    FedIsAfter(cfg, s, text, now);
  }

  lemma FedIsAfter(cfg: Config, s: Sink, text: string, now: nat)
    ensures FeederWith(Handler(cfg, now))(s, text) == AfterRtsp(cfg, s, text, now)
    ensures forall m :: Handler(cfg, now)(s, m) == Handle(cfg, s, m, now)
  {
    hide Handle, FeedWith;
  }

  lemma {:induction false} ShortLines(lines: seq<string>)
    requires forall i :: 0 <= i < |lines| ==> |lines[i]| <= 98
    ensures |Terminated(lines)| <= 100 * |lines|
  {
    if lines != [] { ShortLines(lines[..|lines| - 1]); }
  }

  lemma TriggerLines()
    ensures HeadLines(TRIGGER_MESSAGE)
         == ["SET_PARAMETER * RTSP/1.0", "Content-Type: text/parameters", "Content-Length: 25"]
  {
    hide Decimal, StartText, HeaderText;
    TwentyFive();
    TriggerStart();
    TypeText();
    LengthText();
    assert HeadLines(TRIGGER_MESSAGE)
        == [StartText(TRIGGER_MESSAGE.start), HeaderText(("Content-Type", "text/parameters")),
            HeaderText(("Content-Length", "25"))];
  }

  lemma TriggerStart()
    ensures StartText(Request("SET_PARAMETER", "*")) == "SET_PARAMETER * RTSP/1.0"
  {
  }

  lemma TypeText()
    ensures HeaderText(("Content-Type", "text/parameters")) == "Content-Type: text/parameters"
  {
  }

  lemma LengthText()
    ensures HeaderText(("Content-Length", "25")) == "Content-Length: 25"
  {
  }

  lemma TwentyFive()
    ensures Decimal(25) == "25"
  {
    assert Decimal(25) == Decimal(2) + [DigitChar(5)];
  }

  lemma TriggerSendable()
    ensures Sendable(TRIGGER_MESSAGE)
  {
    hide HeadLines, Terminated;
    TriggerLines();
    ShortLines(HeadLines(TRIGGER_MESSAGE));
    assert LegalStart(TRIGGER_MESSAGE.start);
  }

  lemma AnswerSendable()
    ensures Sendable(SETUP_ANSWER)
  {
    hide Terminated;
    StatusLine("OK");
    var lines := HeadLines(SETUP_ANSWER);
    assert lines == [StartText(SETUP_ANSWER.start), HeaderText(("Session", "1"))];
    SessionName();
    ShortLines(lines);
  }

  lemma SessionName()
    ensures SameIgnoringCase("Session", "session") && !SameIgnoringCase("Session", "content-length")
  {
    var a, b := "Session", "session";
    assert Lower(a[0]) == b[0];
  }

  lemma TriggerIsOneLine()
    ensures SplitOn(TRIGGER, '\n') == [TRIGGER]
  {
    hide SplitOn;
    SplitOnAt(TRIGGER, '\n', "");
  }

  lemma TriggerSplits()
    ensures Parameter(TRIGGER) == ("wfd_trigger_method", "SETUP")
  {
    hide SplitOnce, Trim, IndexOf;
    var name := "wfd_trigger_method";
    assert TRIGGER == name + [':'] + ([' '] + "SETUP");
    SplitOnceAt(name, ':', [' '] + "SETUP");
    TrimTrimmed(name);
    TrimTrimmed("SETUP");
  }

  lemma OneParameter(line: string)
    requires Trimmed(line) && line != ""
    ensures Parameters([line]) == [Parameter(line)]
  {
    hide Parameter, Trim;
    TrimTrimmed(line);
    assert [line][..0] == [];
    assert Parameters([line]) == [] + [Parameter(line)];
  }

  lemma TriggerParameter()
    ensures Parameters(SplitOn(TRIGGER, '\n')) == [("wfd_trigger_method", "SETUP")]
  {
    hide Parameters, SplitOn, Parameter;
    TriggerIsOneLine();
    TriggerSplits();
    OneParameter(TRIGGER);
  }

  /** The trigger makes a new session ready. */
  lemma TriggerReadies(cfg: Config, now: nat)
    ensures var (s, _) := Handle(cfg, Session.START, Received(TRIGGER_MESSAGE), now);
      s.buf == "" && s.neg.phase.Ready? && s.neg.peerSession.None?
  {
    hide Parameters, SplitOn;
    TriggerParameter();
    TrimTrimmed("SETUP");
    var r := Reading(Negotiation.FRESH.(lastHeard := Some(now)), None, false);
    var ps := [("wfd_trigger_method", "SETUP")];
    assert ps[..0] == [];
    assert TakeParameters(r, ps) == TakeParameter(r, ps[0]);
    assert Received(TRIGGER_MESSAGE).body == TRIGGER;
  }

  /** An answer that names a session opens the gate of one that is ready. */
  lemma AnswerOpens(cfg: Config, s: Sink, now: nat)
    requires s.buf == "" && s.neg.phase.Ready? && s.neg.peerSession.None?
    ensures var (s', _) := Handle(cfg, s, Received(SETUP_ANSWER), now); s'.buf == "" && s'.playing
  {
    hide SplitOn, Format;
    SessionName();
    var m := Received(SETUP_ANSWER);
    assert m.headers == [("Session", "1")];
    assert SessionOf(m).Some?;
    var (neg, acts) := AfterMessage(cfg, s.neg, m, now);
    assert acts[|acts| - 1] == Action.Play;
  }

  lemma BlankIsMalformed()
    ensures Take("" + BLANK) == Taken([], "", true)
  {
    assert "" + BLANK == BLANK;
    FindUnique(BLANK, BLANK, 0, 0);
    assert BLANK[..0] == "";
    FindIs("", CRLF, 0);
    SplitOnAt("", ' ', "");
    ParseFrom(BLANK, 0);
  }

  /** Such a session exists: triggered, answered, then sent a blank line, it has
      reported its end and still lets media pass. */
  lemma GateOutlivesMalformed(cfg: Config, now: nat)
    ensures var ops :=
        [RtspBytes(Format(TRIGGER_MESSAGE), now), RtspBytes(Format(SETUP_ANSWER), now), RtspBytes(BLANK, now)];
      var (s, log) := Run(cfg, ops);
      s.playing && Gate(false, log) && log != [] && log[|log| - 1] == Ended(MALFORMED)
  {
    hide Format, Handle, Take, Gate, AfterRtsp, Run, Sendable;
    var a, b := RtspBytes(Format(TRIGGER_MESSAGE), now), RtspBytes(Format(SETUP_ANSWER), now);
    TriggerSendable();
    AnswerSendable();
    assert [] + [a] == [a] && [a] + [b] == [a, b] && [a, b] + [RtspBytes(BLANK, now)] == [a, b, RtspBytes(BLANK, now)];
    RunNothing(cfg);
    RunSnoc(cfg, [], a);
    OneMessage(cfg, Session.START, TRIGGER_MESSAGE, now);
    TriggerReadies(cfg, now);
    RunSnoc(cfg, [a], b);
    OneMessage(cfg, Run(cfg, [a]).0, SETUP_ANSWER, now);
    AnswerOpens(cfg, Run(cfg, [a]).0, now);
    BlankIsMalformed();
    var s := Run(cfg, [a, b]).0;
    assert Fold(Handler(cfg, now), s, []) == (s, []);
    MalformedKeepsGate(cfg, [a, b], BLANK, now);
  }

  lemma RunNothing(cfg: Config)
    ensures Run(cfg, []) == (Session.START, [])
  {
  }
}
