/** What the sink answers, over every run, and the whole exchange that leads to the
    stream, message by message. */
module Exchange {
  import opened Common
  import opened Text
  import opened Rtsp
  import opened Negotiation
  import opened NegotiationRuns

  // ---- answers ----------------------------------------------------------

  predicate IsReply(a: Action) { a.Send? && a.msg.start.Response? }

  predicate IsRequest(op: Op) { op.Hear? && op.m.start.Request? }

  /** The request carries this number. */
  predicate Carries(m: Message, cseq: nat) { cseq < CSEQ_LIMIT && CSeqText(m) == Some(Decimal(cseq)) }

  /** A line that asks for a format other than the one we offered. */
  predicate BadFormat(p: (string, string)) { p.0 == "wfd_video_formats" && ParseChosen(p.1).None? }

  function ParametersOf(m: Message): seq<(string, string)> { Parameters(SplitOn(m.body, '\n')) }

  const VERBS: set<string> := {"OPTIONS", "GET_PARAMETER", "SET_PARAMETER", "TEARDOWN"}

  /** What a sink has to refuse: a method it does not know, a format it cannot take. */
  predicate Unacceptable(m: Message)
    requires m.start.Request?
  {
    || m.start.method_ !in VERBS
    || (m.start.method_ == "SET_PARAMETER" && exists i :: 0 <= i < |ParametersOf(m)| && BadFormat(ParametersOf(m)[i]))
  }

  /** The answer a request calls for: its own number, 200 or a refusal, and the
      capabilities where they are asked for. */
  predicate Answers(cfg: Config, m: Message, reply: Message)
    requires m.start.Request?
  {
    && reply.start == (if Unacceptable(m) then Response(400, "Bad Request") else Response(200, "OK"))
    && (forall c: nat | c < CSEQ_LIMIT && Carries(m, c) :: CSeqText(reply) == Some(Decimal(c)))
    && (CSeqText(m).None? ==> CSeqText(reply) == Some("0"))
    && reply.body == (if m.start.method_ == "GET_PARAMETER" && Trim(m.body) != "" then cfg.capabilities else "")
  }

  lemma CarriedIsRead(m: Message, c: nat)
    requires Carries(m, c)
    ensures CSeqOf(m) == c
  {
    ParseDecimalOf(c, CSEQ_LIMIT);
    TrimTrimmed(Decimal(c));
  }

  lemma ReplyNumbered(status: u16, cseq: nat, extra: Headers, body: string)
    ensures CSeqText(Reply(status, cseq, extra, body)) == Some(Decimal(cseq))
  {
    CSeqName();
  }

  /** Parameters are refused exactly when one of them asks for a bad format. */
  lemma {:induction false} RefusedExactly(r: Reading, ps: seq<(string, string)>)
    ensures TakeParameters(r, ps).refused <==> r.refused || exists i :: 0 <= i < |ps| && BadFormat(ps[i])
  {
    if ps != [] {
      var front := ps[..|ps| - 1];
      RefusedExactly(r, front);
      assert forall i :: 0 <= i < |front| ==> front[i] == ps[i];
      assert BadFormat(ps[|ps| - 1]) || !BadFormat(ps[|ps| - 1]);
    }
  }

  lemma Numbering(m: Message, reply: Message)
    requires CSeqText(reply) == Some(Decimal(CSeqOf(m)))
    ensures forall c: nat | c < CSEQ_LIMIT && Carries(m, c) :: CSeqText(reply) == Some(Decimal(c))
    ensures CSeqText(m).None? ==> CSeqText(reply) == Some("0")
  {
    forall c: nat | c < CSEQ_LIMIT && Carries(m, c) ensures CSeqText(reply) == Some(Decimal(c)) { CarriedIsRead(m, c); }
    assert Decimal(0) == "0";
  }

  /** One request, one answer, and it comes first. */
  lemma OneReply(cfg: Config, s: State, m: Message, now: nat)
    requires m.start.Request?
    ensures var acts := AfterMessage(cfg, s, m, now).1;
      && acts != [] && IsReply(acts[0]) && Answers(cfg, m, acts[0].msg)
      && forall i :: 1 <= i < |acts| ==> !IsReply(acts[i])
  {
    hide Parameters, SplitOn, Trim, Uri, Decimal, CSeqOf, HeaderOf;
    var acts := AfterMessage(cfg, s, m, now).1;
    RefusedExactly(Reading(s.(lastHeard := Some(now)), None, false), ParametersOf(m));
    var status: u16 := if Unacceptable(m) then 400 else 200;
    var c := CSeqOf(m);
    var extra: Headers := if m.start.method_ == "OPTIONS" then [("Public", PUBLIC)] else [];
    var body := if m.start.method_ == "GET_PARAMETER" && Trim(m.body) != "" then cfg.capabilities else "";
    assert acts[0] == Send(Reply(status, c, extra, body));
    ReplyNumbered(status, c, extra, body);
    Numbering(m, acts[0].msg);
  }

  /** Anything else is answered by nothing. */
  lemma NoReply(cfg: Config, s: State, op: Op)
    requires !IsRequest(op)
    ensures var acts := Step(cfg, s, op).1; |acts| <= 2 && forall i :: 0 <= i < |acts| ==> !IsReply(acts[i])
  {
  }

  /** The places of the requests heard. */
  function RequestsAt(ops: seq<Op>): (r: seq<nat>)
    ensures forall i :: 0 <= i < |r| ==> r[i] < |ops| && IsRequest(ops[r[i]])
  {
    if ops == [] then []
    else
      var k := |ops| - 1;
      if IsRequest(ops[k]) then RequestsAt(ops[..k]) + [k] else RequestsAt(ops[..k])
  }

  /** Each request heard has its answer, in the order they came, and there are no others. */
  predicate AllAnswered(cfg: Config, ops: seq<Op>, replies: seq<Entry>) {
    && |replies| == |RequestsAt(ops)|
    && forall i :: 0 <= i < |replies| ==>
         && replies[i].cause == RequestsAt(ops)[i] && IsReply(replies[i].action)
         && Answers(cfg, ops[RequestsAt(ops)[i]].m, replies[i].action.msg)
  }

  lemma AnsweredSnoc(cfg: Config, ops: seq<Op>, replies: seq<Entry>, op: Op, more: seq<Entry>)
    requires AllAnswered(cfg, ops, replies)
    requires if IsRequest(op) then
               && |more| == 1 && more[0].cause == |ops| && IsReply(more[0].action)
               && Answers(cfg, op.m, more[0].action.msg)
             else more == []
    ensures AllAnswered(cfg, ops + [op], replies + more)
  {
    hide Answers;
    assert (ops + [op])[..|ops|] == ops;
  }

  lemma StepReplies(cfg: Config, s: State, op: Op, k: nat)
    ensures var replies := Pick(Stamp(k, op.now, Step(cfg, s, op).1), IsReply);
      if IsRequest(op) then
        && |replies| == 1 && replies[0].cause == k && IsReply(replies[0].action)
        && Answers(cfg, op.m, replies[0].action.msg)
      else replies == []
  {
    hide Answers, AfterMessage;
    var acts := Step(cfg, s, op).1;
    if IsRequest(op) { OneReply(cfg, s, op.m, op.now); } else { NoReply(cfg, s, op); }
    StepSize(cfg, s, op);
    PickStamped(k, op.now, acts, IsReply);
  }

  /** Over every run, whatever else is going on: every request of the source is answered
      exactly once, in order and under its own number; refused when it has to be, with
      the capabilities when it asks for them, and otherwise with a plain 200. */
  lemma {:induction false} RequestsAreAnswered(cfg: Config, ops: seq<Op>)
    ensures AllAnswered(cfg, ops, Pick(Run(cfg, ops).1, IsReply))
  {
    hide Answers, Step, AllAnswered, Stamp;
    if ops == [] {
      NothingAnswered(cfg);
    } else {
      var k := |ops| - 1;
      RequestsAreAnswered(cfg, ops[..k]);
      var (s, log) := Run(cfg, ops[..k]);
      var more := Stamp(k, ops[k].now, Step(cfg, s, ops[k]).1);
      StepReplies(cfg, s, ops[k], k);
      PickAppend(log, more, IsReply);
      AnsweredSnoc(cfg, ops[..k], Pick(log, IsReply), ops[k], Pick(more, IsReply));
      assert ops[..k] + [ops[k]] == ops;
    }
  }

  lemma NothingAnswered(cfg: Config)
    ensures AllAnswered(cfg, [], Pick(Run(cfg, []).1, IsReply))
  {
  }

  lemma StepSize(cfg: Config, s: State, op: Op)
    ensures |Step(cfg, s, op).1| <= 2
  {
    var _, acts := StepEffect(cfg, s, op);
  }

  /** A keep-alive of the source's leaves everything but the time we heard of it. */
  lemma KeepAliveMovesNothing(cfg: Config, s: State, m: Message, now: nat)
    requires m.start.Request? && m.start.method_ == "GET_PARAMETER" && Trim(m.body) == ""
    ensures AfterMessage(cfg, s, m, now).0 == s.(lastHeard := Some(now)) && |AfterMessage(cfg, s, m, now).1| == 1
  {
  }

  /** The source's TEARDOWN ends the session, once it is answered. */
  lemma TeardownEnds(cfg: Config, s: State, m: Message, now: nat)
    requires m.start.Request? && m.start.method_ == "TEARDOWN"
    ensures var (s', acts) := AfterMessage(cfg, s, m, now);
      s'.phase.Done? && |acts| == 2 && acts[1] == Teardown("source sent TEARDOWN")
  {
  }

  // ---- the exchange that starts the stream ------------------------------

  predicate Asking(m: Message, verb: string, cseq: nat) {
    m.start.Request? && m.start.method_ == verb && Carries(m, cseq)
  }

  /** A format line that chooses CEA mode 5, and nothing of the other tables. */
  predicate ChoosesMode5(format: string) {
    && Trimmed(format) && '\n' !in format
    && var f := Words(format);
       |f| >= 7 && ParseHex(f[4], 0x1_0000_0000) == Some(0x20) && ParseHex(f[5], 0x1_0000_0000) == Some(0)
       && ParseHex(f[6], 0x1_0000_0000) == Some(0)
  }

  predicate IsWord(s: string) { s != "" && forall i :: 0 <= i < |s| ==> !IsSpace(s[i]) }

  /** The source's choice: a format, and where to set the stream up. */
  function ChoiceBody(format: string, url: string): string {
    ("wfd_video_formats" + [':'] + ([' '] + format) + "\r")
    + ['\n'] + (("wfd_presentation_URL" + [':'] + ([' '] + (url + " none")) + "\r") + ['\n'] + "")
  }

  function TriggerBody(): string { "wfd_trigger_method" + [':'] + ([' '] + "SETUP") + "\r" + ['\n'] + "" }

  /** The answer to our SETUP, with the session it opens. */
  predicate OpensSession(m: Message, session: string) {
    && m.start.Response? && m.start.status == 200 && Trimmed(session) && ';' !in session
    && HeaderOf(m.headers, "session").Some?
    && var v := HeaderOf(m.headers, "session").value;
       v == session || (|session| < |v| && v[..|session| + 1] == session + [';'])
  }

  function Did(log: seq<Entry>): seq<Action> { seq(|log|, i requires 0 <= i < |log| => log[i].action) }

  // reading what the source says

  lemma FirstWordIs(w: string, rest: string)
    requires IsWord(w) && (rest == "" || IsSpace(rest[0]))
    ensures FirstWord(w + rest) == w
  {
    if |w| == 1 {
      assert (w + rest)[1..] == rest && FirstWord(rest) == "";
      assert w == [w[0]];
    } else {
      FirstWordIs(w[1..], rest);
      assert (w + rest)[1..] == w[1..] + rest;
    }
  }

  lemma LineTrims(line: string)
    requires line != "" && Trimmed(line)
    ensures Trim(line + "\r") == line
  {
    var s := line + "\r";
    assert TrimStart(s) == s;
    assert s[..|s| - 1] == line && TrimEnd(line) == line;
  }

  lemma NamedLine(name: string, value: string)
    requires Trimmed(name) && name != "" && ':' !in name && Trimmed(value) && value != ""
    ensures var line := name + [':'] + ([' '] + value);
      Trim(line + "\r") == line && line != "" && Parameter(line) == (name, value)
  {
    var line := name + [':'] + ([' '] + value);
    assert line[0] == name[0] && line[|line| - 1] == value[|value| - 1];
    LineTrims(line);
    SplitOnceAt(name, ':', [' '] + value);
    TrimTrimmed(name);
    TrimTrimmed(value);
  }

  lemma ParametersSnoc(lines: seq<string>, line: string)
    ensures Parameters(lines + [line])
         == if Trim(line) == "" then Parameters(lines) else Parameters(lines) + [Parameter(Trim(line))]
  {
    assert (lines + [line])[..|lines|] == lines;
  }

  lemma OneLineBody(a: string, p: (string, string))
    requires '\n' !in a && Trim(a) != "" && Parameter(Trim(a)) == p
    ensures Parameters(SplitOn(a + ['\n'] + "", '\n')) == [p]
  {
    hide Trim, Parameter, Parameters, SplitOn;
    SplitOnAt(a, '\n', "");
    SplitOnAt("", '\n', "");
    assert SplitOn(a + ['\n'] + "", '\n') == [a] + [""] && [] + [a] == [a];
    ParametersSnoc([a], "");
    ParametersSnoc([], a);
    NoParameters();
    assert [] + [p] == [p];
  }

  lemma NoParameters()
    ensures Parameters([]) == [] && Trim("") == ""
  {
  }

  lemma TwoLineBody(a: string, p: (string, string), b: string, q: (string, string))
    requires '\n' !in a && Trim(a) != "" && Parameter(Trim(a)) == p
    requires '\n' !in b && Trim(b) != "" && Parameter(Trim(b)) == q
    ensures Parameters(SplitOn(a + ['\n'] + (b + ['\n'] + ""), '\n')) == [p, q]
  {
    hide Trim, Parameter, Parameters, SplitOn;
    SplitOnAt(a, '\n', b + ['\n'] + "");
    SplitOnAt(b, '\n', "");
    SplitOnAt("", '\n', "");
    assert [a] + ([b] + [""]) == ([a] + [b]) + [""] && [] + [a] == [a];
    ParametersSnoc([a] + [b], "");
    ParametersSnoc([a], b);
    ParametersSnoc([], a);
    NoParameters();
    assert [] + [p] == [p] && [p] + [q] == [p, q];
  }

  lemma ChoiceRead(format: string, url: string)
    requires ChoosesMode5(format) && IsWord(url)
    ensures Parameters(SplitOn(ChoiceBody(format, url), '\n'))
         == [("wfd_video_formats", format), ("wfd_presentation_URL", url + " none")]
    ensures ParseChosen(format) == Some(VideoMode(1280, 720, 30))
    ensures Words(url + " none") != [] && Words(url + " none")[0] == url
  {
    hide Parameters, SplitOn, Trim, Parameter, ParseChosen, ChoosesMode5;
    FormatLine(format);
    UrlLine(url);
    TwoLineBody("wfd_video_formats" + [':'] + ([' '] + format) + "\r", ("wfd_video_formats", format),
                "wfd_presentation_URL" + [':'] + ([' '] + (url + " none")) + "\r",
                ("wfd_presentation_URL", url + " none"));
    FirstWordIs(url, " none");
  }

  lemma FormatLine(format: string)
    requires ChoosesMode5(format)
    ensures var line := "wfd_video_formats" + [':'] + ([' '] + format) + "\r";
      '\n' !in line && Trim(line) != "" && Parameter(Trim(line)) == ("wfd_video_formats", format)
    ensures ParseChosen(format) == Some(VideoMode(1280, 720, 30))
  {
    hide Trim, Parameter, ParseChosen, ChoosesMode5;
    ChosenFormat(format);
    NamedLine("wfd_video_formats", format);
  }

  lemma ChosenFormat(format: string)
    requires ChoosesMode5(format)
    ensures Trimmed(format) && '\n' !in format && format != "" && ParseChosen(format) == Some(VideoMode(1280, 720, 30))
  {
    hide ParseChosen, ParseHex, Trimmed;
    assert |Words(format)| > 0 ==> format != "";
    ChosenExactly(format);
  }

  lemma UrlLine(url: string)
    requires IsWord(url)
    ensures var line := "wfd_presentation_URL" + [':'] + ([' '] + (url + " none")) + "\r";
      '\n' !in line && Trim(line) != "" && Parameter(Trim(line)) == ("wfd_presentation_URL", url + " none")
  {
    hide Trim, Parameter;
    assert forall i :: 0 <= i < |url| ==> url[i] != '\n';
    NamedLine("wfd_presentation_URL", url + " none");
  }

  lemma TriggerRead()
    ensures Parameters(SplitOn(TriggerBody(), '\n')) == [("wfd_trigger_method", "SETUP")] && Trim("SETUP") == "SETUP"
  {
    hide Parameters, SplitOn, Trim, Parameter;
    var name := "wfd_trigger_method";
    TrimTrimmed("SETUP");
    NamedLine(name, "SETUP");
    OneLineBody(name + [':'] + ([' '] + "SETUP") + "\r", (name, "SETUP"));
  }

  lemma SessionRead(m: Message, session: string)
    requires OpensSession(m, session)
    ensures SessionOf(m) == Some(session)
  {
    hide Trim;
    var v := HeaderOf(m.headers, "session").value;
    TrimTrimmed(session);
    SplitOnAt(session, ';', "");
    if v != session {
      var rest := v[|session| + 1..];
      assert v == session + [';'] + rest;
      SplitOnAt(session, ';', rest);
    }
  }

  // one message after the other

  /** A plain answer with this number. */
  function Ok(cseq: nat, extra: Headers, body: string): Action {
    Send(Message(Response(200, "OK"), [("CSeq", Decimal(cseq))] + extra, body))
  }

  /** A request of ours under this number. */
  function Want(cseq: nat, verb: string, uri: string, extra: Headers): Action {
    Send(Message(Request(verb, uri), [("CSeq", Decimal(cseq))] + extra, ""))
  }

  lemma HearsOptions(cfg: Config, s: State, m: Message, c: nat, now: nat)
    requires Asking(m, "OPTIONS", c)
    ensures AfterMessage(cfg, s, m, now)
         == (s.(lastHeard := Some(now), nextCseq := s.nextCseq + 1),
             [Ok(c, [("Public", PUBLIC)], ""), Want(s.nextCseq, "OPTIONS", "*", [("Require", "org.wfa.wfd1.0")])])
  {
    hide CSeqOf, Decimal;
    CarriedIsRead(m, c);
  }

  lemma HearsCapabilities(cfg: Config, s: State, m: Message, c: nat, now: nat)
    requires Asking(m, "GET_PARAMETER", c) && Trim(m.body) != ""
    ensures AfterMessage(cfg, s, m, now)
         == (s.(lastHeard := Some(now), phase := Capabilities), [Ok(c, [], cfg.capabilities)])
  {
    hide CSeqOf, Decimal, Trim;
    CarriedIsRead(m, c);
    assert [("CSeq", Decimal(c))] + [] == [("CSeq", Decimal(c))];
  }

  lemma HearsChoice(cfg: Config, s: State, m: Message, c: nat, format: string, url: string, now: nat)
    requires Asking(m, "SET_PARAMETER", c) && m.body == ChoiceBody(format, url) && ChoosesMode5(format) && IsWord(url)
    ensures AfterMessage(cfg, s, m, now)
         == (s.(lastHeard := Some(now), chosen := Some(VideoMode(1280, 720, 30)), url := url), [Ok(c, [], "")])
  {
    hide CSeqOf, Decimal, Parameters, SplitOn, ParseChosen, Words, ChoiceBody, ChoosesMode5;
    CarriedIsRead(m, c);
    ChoiceRead(format, url);
    var p, q := ("wfd_video_formats", format), ("wfd_presentation_URL", url + " none");
    var r := Reading(s.(lastHeard := Some(now)), None, false);
    var r1 := TakeParameter(r, p);
    assert [p, q][..1] == [p] && [p][..0] == [];
    assert TakeParameters(r, []) == r && TakeParameters(r, [p]) == r1;
    assert TakeParameters(r, [p, q]) == TakeParameter(r1, q);
    assert Words(url + " none")[0] == url;
  }

  lemma HearsTrigger(cfg: Config, s: State, m: Message, c: nat, now: nat)
    requires Asking(m, "SET_PARAMETER", c) && m.body == TriggerBody() && s.url != ""
    ensures AfterMessage(cfg, s, m, now)
         == (s.(lastHeard := Some(now), phase := Ready, nextCseq := s.nextCseq + 1),
             [Ok(c, [], ""),
              Want(s.nextCseq, "SETUP", s.url,
                   [("Transport", "RTP/AVP/UDP;unicast;client_port=" + Decimal(cfg.rtpPort))])])
  {
    hide CSeqOf, Decimal, Parameters, SplitOn, Trim, TriggerBody;
    CarriedIsRead(m, c);
    TriggerRead();
    var p := ("wfd_trigger_method", "SETUP");
    var r := Reading(s.(lastHeard := Some(now)), None, false);
    assert [p][..0] == [];
    assert TakeParameters(r, []) == r && TakeParameters(r, [p]) == TakeParameter(r, p);
  }

  lemma HearsSession(cfg: Config, s: State, m: Message, session: string, now: nat)
    requires OpensSession(m, session) && s.phase.Ready? && s.peerSession.None? && s.url != ""
    ensures AfterMessage(cfg, s, m, now)
         == (s.(lastHeard := Some(now), phase := Playing, peerSession := Some(session), nextCseq := s.nextCseq + 1),
             [Want(s.nextCseq, "PLAY", s.url, [("Session", session)]), Play])
  {
    hide SessionOf, Decimal;
    SessionRead(m, session);
  }

  /** An answer to our OPTIONS changes nothing before there is a stream to play. */
  lemma HearsOk(cfg: Config, s: State, m: Message, now: nat)
    requires m.start.Response? && m.start.status == 200 && !s.phase.Ready?
    ensures AfterMessage(cfg, s, m, now) == (s.(lastHeard := Some(now)), [])
  {
  }

  /** What a source says to start a stream, M1 to M6, with its own numbers. */
  datatype Talk = Talk(m1: Message, r2: Message, m3: Message, m4: Message, m5: Message, r6: Message, c1: nat, c3: nat,
                       c4: nat, c5: nat, format: string, url: string, session: string)

  predicate Proper(t: Talk) {
    && Asking(t.m1, "OPTIONS", t.c1)
    && t.r2.start.Response? && t.r2.start.status == 200
    && Asking(t.m3, "GET_PARAMETER", t.c3) && Trim(t.m3.body) != ""
    && Asking(t.m4, "SET_PARAMETER", t.c4) && t.m4.body == ChoiceBody(t.format, t.url)
    && ChoosesMode5(t.format) && IsWord(t.url)
    && Asking(t.m5, "SET_PARAMETER", t.c5) && t.m5.body == TriggerBody()
    && OpensSession(t.r6, t.session)
  }

  function Heard(t: Talk, at: seq<nat>): seq<Op>
    requires |at| == 6
  {
    [Hear(t.m1, at[0]), Hear(t.r2, at[1]), Hear(t.m3, at[2]), Hear(t.m4, at[3]), Hear(t.m5, at[4]), Hear(t.r6, at[5])]
  }

  lemma RunSnoc(cfg: Config, ops: seq<Op>, op: Op)
    ensures var (s, log) := Run(cfg, ops);
      var (s', acts) := Step(cfg, s, op);
      Run(cfg, ops + [op]).0 == s' && Did(Run(cfg, ops + [op]).1) == Did(log) + acts
  {
    hide Step;
    assert (ops + [op])[..|ops|] == ops;
  }

  lemma FirstThree(cfg: Config, t: Talk, at: seq<nat>)
    requires Proper(t) && |at| == 6
    ensures var (s, log) := Run(cfg, Heard(t, at)[..3]);
      && s == FRESH.(lastHeard := Some(at[2]), nextCseq := 101, phase := Capabilities)
      && Did(log) == [Ok(t.c1, [("Public", PUBLIC)], ""), Want(100, "OPTIONS", "*", [("Require", "org.wfa.wfd1.0")]),
                      Ok(t.c3, [], cfg.capabilities)]
  {
    hide AfterMessage, Run, Ok, Want, Asking, Trim, ChoosesMode5;
    var ops := Heard(t, at);
    RunNothing(cfg);
    RunSnoc(cfg, [], ops[0]);
    assert [] + [ops[0]] == [ops[0]] && [ops[0]] + [ops[1]] == [ops[0], ops[1]];
    assert [ops[0], ops[1]] + [ops[2]] == ops[..3];
    HearsOptions(cfg, FRESH, t.m1, t.c1, at[0]);
    RunSnoc(cfg, [ops[0]], ops[1]);
    HearsOk(cfg, Run(cfg, [ops[0]]).0, t.r2, at[1]);
    RunSnoc(cfg, [ops[0], ops[1]], ops[2]);
    HearsCapabilities(cfg, Run(cfg, [ops[0], ops[1]]).0, t.m3, t.c3, at[2]);
  }

  lemma RunNothing(cfg: Config)
    ensures Run(cfg, []) == (FRESH, []) && Did([]) == []
  {
  }

  /** The exchange, message by message: a source that asks for our options and our
      capabilities, chooses the format we offered, names a URL, triggers SETUP and opens
      a session, hears from us, in this order: its answer and our OPTIONS; the
      capabilities; two plain 200s; SETUP for that URL with our port; PLAY under its
      session. Then the stream plays, at 1280x720 and 30 frames a second. */
  lemma ExchangeStartsStream(cfg: Config, t: Talk, at: seq<nat>)
    requires Proper(t) && |at| == 6
    ensures var (s, log) := Run(cfg, Heard(t, at));
      && Did(log) == [
           Ok(t.c1, [("Public", PUBLIC)], ""), Want(100, "OPTIONS", "*", [("Require", "org.wfa.wfd1.0")]),
           Ok(t.c3, [], cfg.capabilities),
           Ok(t.c4, [], ""),
           Ok(t.c5, [], ""),
           Want(101, "SETUP", t.url, [("Transport", "RTP/AVP/UDP;unicast;client_port=" + Decimal(cfg.rtpPort))]),
           Want(102, "PLAY", t.url, [("Session", t.session)]), Play]
      && s.phase.Playing? && s.chosen == Some(VideoMode(1280, 720, 30)) && s.peerSession == Some(t.session)
      && s.url == t.url
  {
    hide AfterMessage, Run, Ok, Want, Asking, Trim, ChoosesMode5, OpensSession, Decimal, ChoiceBody, TriggerBody;
    var ops := Heard(t, at);
    FirstThree(cfg, t, at);
    var s3 := Run(cfg, ops[..3]).0;
    assert ops[..3] + [ops[3]] == ops[..4] && ops[..4] + [ops[4]] == ops[..5] && ops[..5] + [ops[5]] == ops;
    RunSnoc(cfg, ops[..3], ops[3]);
    HearsChoice(cfg, s3, t.m4, t.c4, t.format, t.url, at[3]);
    var s4 := Run(cfg, ops[..4]).0;
    RunSnoc(cfg, ops[..4], ops[4]);
    HearsTrigger(cfg, s4, t.m5, t.c5, at[4]);
    var s5 := Run(cfg, ops[..5]).0;
    RunSnoc(cfg, ops[..5], ops[5]);
    HearsSession(cfg, s5, t.r6, t.session, at[5]);
  }

  /** The state before each message. */
  function Stage(t: Talk, at: seq<nat>, k: nat): State
    requires |at| == 6 && k <= 5
  {
    if k == 0 then FRESH
    else
      var before := Stage(t, at, k - 1).(lastHeard := Some(at[k - 1]));
      if k == 1 then before.(nextCseq := 101)
      else if k == 2 then before
      else if k == 3 then before.(phase := Capabilities)
      else if k == 4 then before.(chosen := Some(VideoMode(1280, 720, 30)), url := t.url)
      else before.(phase := Ready, nextCseq := 102)
  }

  lemma Stages(t: Talk, at: seq<nat>)
    requires |at| == 6
    ensures var s := FRESH.(lastHeard := Some(at[0]), nextCseq := 101);
      && Stage(t, at, 0) == FRESH && Stage(t, at, 1) == s && Stage(t, at, 2) == s.(lastHeard := Some(at[1]))
      && var s3 := s.(lastHeard := Some(at[2]), phase := Capabilities);
         && Stage(t, at, 3) == s3
         && var s4 := s3.(lastHeard := Some(at[3]), chosen := Some(VideoMode(1280, 720, 30)), url := t.url);
            Stage(t, at, 4) == s4 && Stage(t, at, 5) == s4.(lastHeard := Some(at[4]), phase := Ready, nextCseq := 102)
  {
  }

  lemma StageOn(cfg: Config, t: Talk, at: seq<nat>, k: nat)
    requires Proper(t) && |at| == 6 && k < 5
    requires Run(cfg, Heard(t, at)[..k]).0 == Stage(t, at, k)
    ensures Run(cfg, Heard(t, at)[..k + 1]).0 == Stage(t, at, k + 1)
    ensures var acts := Step(cfg, Stage(t, at, k), Heard(t, at)[k]).1; forall i :: 0 <= i < |acts| ==> acts[i].Send?
  {
    hide AfterMessage, Run, Asking, Trim, ChoosesMode5, OpensSession, Decimal, ChoiceBody, TriggerBody;
    var ops := Heard(t, at);
    assert ops[..k] + [ops[k]] == ops[..k + 1];
    RunSnoc(cfg, ops[..k], ops[k]);
    var s := Stage(t, at, k);
    Stages(t, at);
    if k == 0 {
      HearsOptions(cfg, s, t.m1, t.c1, at[0]);
    } else if k == 1 {
      HearsOk(cfg, s, t.r2, at[1]);
    } else if k == 2 {
      HearsCapabilities(cfg, s, t.m3, t.c3, at[2]);
    } else if k == 3 {
      HearsChoice(cfg, s, t.m4, t.c4, t.format, t.url, at[3]);
    } else {
      HearsTrigger(cfg, s, t.m5, t.c5, at[4]);
    }
  }

  // ---- the clock --------------------------------------------------------

  /** When the source was last heard of. */
  function LastHeard(ops: seq<Op>): Option<nat> {
    if ops == [] then None
    else if ops[|ops| - 1].Hear? then Some(ops[|ops| - 1].now)
    else LastHeard(ops[..|ops| - 1])
  }

  function LastOf(es: seq<Entry>): Option<nat> { if es == [] then None else Some(es[|es| - 1].now) }

  lemma HeardStep(cfg: Config, s: State, op: Op)
    ensures Step(cfg, s, op).0.lastHeard == if op.Hear? then Some(op.now) else s.lastHeard
  {
    hide Parameters, SplitOn, CSeqOf, Uri, Decimal;
    if op.Hear? && op.m.start.Request? && op.m.start.method_ == "SET_PARAMETER" {
      TakeKeeps(Reading(s.(lastHeard := Some(op.now)), None, false), ParametersOf(op.m));
    }
  }

  lemma {:induction false} HeardIs(cfg: Config, ops: seq<Op>)
    ensures Run(cfg, ops).0.lastHeard == LastHeard(ops)
  {
    hide Step;
    if ops != [] {
      HeardIs(cfg, ops[..|ops| - 1]);
      HeardStep(cfg, Run(cfg, ops[..|ops| - 1]).0, ops[|ops| - 1]);
    }
  }

  /** A source silent for more than ten seconds. */
  predicate Silent(ops: seq<Op>, now: nat) {
    LastHeard(ops).Some? && SatSub(now, LastHeard(ops).value) > 10 * SECOND
  }

  /** Five seconds since the last keep-alive, or since the source was heard of when there
      was none. */
  predicate KeepAliveDue(ops: seq<Op>, log: seq<Entry>, now: nat) {
    var last := LastOf(Pick(log, IsKeepAlive));
    var from := if last.Some? then last else LastHeard(ops);
    from.Some? && SatSub(now, from.value) >= 5 * SECOND
  }

  /** After any run that has not ended, a tick does just this: it gives a silent source
      up, or sends the keep-alive that is due, or nothing. */
  lemma TicksExactly(cfg: Config, ops: seq<Op>, now: nat)
    requires !Run(cfg, ops).0.phase.Done?
    ensures var (s, log) := Run(cfg, ops);
      var (s', acts) := Step(cfg, s, Clock(now));
      && (acts == [Teardown("no keep-alive reply for 10 s")] <==> Silent(ops, now))
      && (s'.phase.Done? <==> Silent(ops, now))
      && (!Silent(ops, now) ==>
            if KeepAliveDue(ops, log, now) then |acts| == 1 && IsKeepAlive(acts[0]) && acts[0].msg.body == ""
            else acts == [] && s' == s)
  {
    hide Pick, Run, Uri, Decimal, Spaced;
    HeardIs(cfg, ops);
    RequestsArePaced(cfg, ops);
  }

  /** After any run, a wish for a keyframe becomes a request exactly when none went out
      within half a second. */
  lemma KeyframeExactly(cfg: Config, ops: seq<Op>, now: nat)
    ensures var (s, log) := Run(cfg, ops);
      var acts := Step(cfg, s, WantKeyframe(now)).1;
      var last := LastOf(Pick(log, IsKeyframeAsk));
      if last.Some? && SatSub(now, last.value) < 500_000_000 then acts == []
      else |acts| == 1 && IsKeyframeAsk(acts[0]) && acts[0].msg.body == "wfd_idr_request\r\n"
  {
    hide Pick, Run, Uri, Decimal, Spaced;
    RequestsArePaced(cfg, ops);
  }

  /** A wish for a bitrate goes out as one request under our session while the stream
      plays, and otherwise not at all. */
  lemma BitrateExactly(cfg: Config, ops: seq<Op>, kbps: u32, now: nat)
    ensures var (s, log) := Run(cfg, ops);
      Step(cfg, s, WantBitrate(kbps, now)).1 ==
        if !s.phase.Playing? then []
        else [Send(Message(Request("SET_PARAMETER", Uri(cfg, s)),
                           [("CSeq", Decimal(s.nextCseq))]
                           + (if s.peerSession.Some? then [("Session", s.peerSession.value)] else []),
                           "microsoft_max_bitrate: " + Decimal(kbps) + CRLF))]
  {
    hide Uri, Decimal, Run;
  }
}
