/** The Wi-Fi Display exchange as the sink plays it: what each message, each clock
    tick and each local wish makes it send. Times are in nanoseconds. */
module Negotiation {
  import opened Common
  import opened Text
  import opened Rtsp

  const SECOND: nat := 1_000_000_000
  const KEEPALIVE_EVERY: nat := 5 * SECOND
  const KEEPALIVE_TIMEOUT: nat := 10 * SECOND
  const IDR_MIN_INTERVAL: nat := 500_000_000

  /** The first CSeq we use, and the widest one a peer may. */
  const FIRST_CSEQ: nat := 100
  const CSEQ_LIMIT: nat := 0x1_0000_0000

  const PUBLIC := "org.wfa.wfd1.0, SETUP, TEARDOWN, PLAY, PAUSE, GET_PARAMETER, SET_PARAMETER"
  const IDR_REQUEST := "wfd_idr_request\r\n"

  datatype VideoMode = VideoMode(width: nat, height: nat, fps: nat)
  datatype Phase = Init | Capabilities | Ready | Playing | Done
  datatype Action = Send(msg: Message) | Play | Teardown(reason: string)

  /** What the sink was built with: the text it answers M3 with, its RTP port and
      the name of its session. */
  datatype Config = Config(capabilities: string, rtpPort: u16, sessionId: string)

  datatype State = State(
    phase: Phase, nextCseq: nat, url: string, chosen: Option<VideoMode>, peerSession: Option<string>,
    lastHeard: Option<nat>, lastKeepalive: Option<nat>, lastIdr: Option<nat>)

  const FRESH := State(Init, FIRST_CSEQ, "", None, None, None, None, None)

  // ---- messages ---------------------------------------------------------

  function ReasonFor(status: u16): string {
    match status
    case 200 => "OK"
    case 400 => "Bad Request"
    case 404 => "Not Found"
    case 454 => "Session Not Found"
    case 503 => "Service Unavailable"
    case _ => "Error"
  }

  function Reply(status: u16, cseq: nat, extra: Headers, body: string): Message {
    Message(Response(status, ReasonFor(status)), [("CSeq", Decimal(cseq))] + extra, body)
  }

  function Ask(cseq: nat, verb: string, uri: string, extra: Headers, body: string): Message {
    Message(Request(verb, uri), [("CSeq", Decimal(cseq))] + extra, body)
  }

  function CSeqOf(m: Message): nat {
    match HeaderOf(m.headers, "cseq")
    case None => 0
    case Some(v) => var n := ParseDecimal(Trim(v), CSEQ_LIMIT); if n.Some? then n.value else 0
  }

  /** The session a SETUP answer names, without its parameters. */
  function SessionOf(m: Message): Option<string> {
    match HeaderOf(m.headers, "session")
    case None => None
    case Some(v) => Some(Trim(SplitOn(v, ';')[0]))
  }

  function SessionHeader(peer: Option<string>): Headers {
    if peer.Some? then [("Session", peer.value)] else []
  }

  function Uri(cfg: Config, s: State): string {
    if s.url == "" then "rtsp://localhost/wfd1.0/" + cfg.sessionId else s.url
  }

  function Bump(s: State): State { s.(nextCseq := s.nextCseq + 1) }

  // ---- parameters -------------------------------------------------------

  function Parameter(line: string): (string, string) {
    match SplitOnce(line, ':')
    case None => (line, "")
    case Some((k, v)) => (Trim(k), Trim(v))
  }

  /** Each line that is not blank, as a name and a value. */
  function Parameters(lines: seq<string>): seq<(string, string)> {
    if lines == [] then []
    else
      var front, line := Parameters(lines[..|lines| - 1]), Trim(lines[|lines| - 1]);
      if line == "" then front else front + [Parameter(line)]
  }

  function CountOnes(n: nat): nat { if n == 0 then 0 else n % 2 + CountOnes(n / 2) }

  function TrailingZeros(n: nat): nat
    requires n > 0
  {
    if n % 2 == 1 then 0 else 1 + TrailingZeros(n / 2)
  }

  function CeaMode(bit: nat): Option<VideoMode> { if bit == 5 then Some(VideoMode(1280, 720, 30)) else None }

  /** The mode a chosen-format line names, if it is one we offered. */
  function ParseChosen(value: string): Option<VideoMode> {
    var f := Words(value);
    if |f| < 7 then None
    else
      var cea, vesa, hh := ParseHex(f[4], 0x1_0000_0000), ParseHex(f[5], 0x1_0000_0000), ParseHex(f[6], 0x1_0000_0000);
      if cea.None? || vesa.None? || hh.None? then None
      else if vesa.value != 0 || hh.value != 0 || CountOnes(cea.value) != 1 then None
      else CeaMode(TrailingZeros(cea.value))
  }

  lemma {:induction false} OneBit(n: nat)
    requires n > 0
    ensures CountOnes(n) >= 1
    ensures CountOnes(n) == 1 && n % 2 == 1 ==> n == 1
  {
    if n > 1 { OneBit(n / 2); }
  }

  /** A line is accepted exactly when its CEA field is mode 5 alone and the other two
      tables are empty, whatever else it says. */
  lemma ChosenExactly(value: string)
    ensures var f := Words(value);
      ParseChosen(value).Some? <==> |f| >= 7 && ParseHex(f[4], 0x1_0000_0000) == Some(0x20)
                                    && ParseHex(f[5], 0x1_0000_0000) == Some(0)
                                    && ParseHex(f[6], 0x1_0000_0000) == Some(0)
    ensures ParseChosen(value).Some? ==> ParseChosen(value).value == VideoMode(1280, 720, 30)
  {
    var f := Words(value);
    if |f| >= 7 {
      var cea := ParseHex(f[4], 0x1_0000_0000);
      if cea.Some? && cea.value > 0 { BitFive(cea.value); }
    }
  }

  function Pow2(k: nat): nat { if k == 0 then 1 else 2 * Pow2(k - 1) }

  lemma {:induction false} PowerOfTwo(n: nat)
    requires n > 0 && CountOnes(n) == 1
    ensures n == Pow2(TrailingZeros(n))
  {
    if n % 2 == 1 { OneBit(n); } else { PowerOfTwo(n / 2); }
  }

  lemma {:induction false} OneBitAt(k: nat)
    ensures Pow2(k) > 0 && CountOnes(Pow2(k)) == 1 && TrailingZeros(Pow2(k)) == k
  {
    if k > 0 { OneBitAt(k - 1); }
  }

  lemma BitFive(n: nat)
    requires n > 0
    ensures CountOnes(n) == 1 && TrailingZeros(n) == 5 <==> n == 32
  {
    assert Pow2(5) == 2 * Pow2(4) == 4 * Pow2(3) == 8 * Pow2(2) == 16 * Pow2(1) == 32;
    OneBitAt(5);
    if CountOnes(n) == 1 { PowerOfTwo(n); }
  }

  /** How far reading a SET_PARAMETER body has come. */
  datatype Reading = Reading(s: State, trigger: Option<string>, refused: bool)

  function TakeParameter(r: Reading, p: (string, string)): Reading {
    if r.refused then r
    else if p.0 == "wfd_video_formats" then
      var mode := ParseChosen(p.1);
      if mode.Some? then r.(s := r.s.(chosen := mode)) else r.(refused := true)
    else if p.0 == "wfd_presentation_URL" then
      var words := Words(p.1);
      r.(s := r.s.(url := if words == [] then "" else words[0]))
    else if p.0 == "wfd_trigger_method" then r.(trigger := Some(Trim(p.1)))
    else r
  }

  function TakeParameters(r: Reading, ps: seq<(string, string)>): Reading {
    if ps == [] then r else TakeParameter(TakeParameters(r, ps[..|ps| - 1]), ps[|ps| - 1])
  }

  // ---- what each input does ---------------------------------------------

  function AfterSetParameter(cfg: Config, s: State, cseq: nat, m: Message): (State, seq<Action>) {
    var r := TakeParameters(Reading(s, None, false), Parameters(SplitOn(m.body, '\n')));
    if r.refused then (r.s, [Send(Reply(400, cseq, [], ""))])
    else if r.trigger != Some("SETUP") then (r.s, [Send(Reply(200, cseq, [], ""))])
    else
      var transport := ("Transport", "RTP/AVP/UDP;unicast;client_port=" + Decimal(cfg.rtpPort));
      (Bump(r.s).(phase := Ready),
       [Send(Reply(200, cseq, [], "")), Send(Ask(r.s.nextCseq, "SETUP", Uri(cfg, r.s), [transport], ""))])
  }

  function AfterRequest(cfg: Config, s: State, verb: string, m: Message): (State, seq<Action>) {
    var cseq := CSeqOf(m);
    if verb == "OPTIONS" then
      (Bump(s), [Send(Reply(200, cseq, [("Public", PUBLIC)], "")),
                 Send(Ask(s.nextCseq, "OPTIONS", "*", [("Require", "org.wfa.wfd1.0")], ""))])
    else if verb == "GET_PARAMETER" then
      if Trim(m.body) == "" then (s, [Send(Reply(200, cseq, [], ""))])
      else (s.(phase := Capabilities), [Send(Reply(200, cseq, [], cfg.capabilities))])
    else if verb == "SET_PARAMETER" then AfterSetParameter(cfg, s, cseq, m)
    else if verb == "TEARDOWN" then
      (s.(phase := Done), [Send(Reply(200, cseq, [], "")), Teardown("source sent TEARDOWN")])
    else (s, [Send(Reply(400, cseq, [], ""))])
  }

  function AfterResponse(cfg: Config, s: State, status: u16, m: Message): (State, seq<Action>) {
    if status != 200 then (s, [Teardown("source refused a request")])
    else if !s.phase.Ready? || s.peerSession.Some? then (s, [])
    else if SessionOf(m).None? then (s, [Teardown("SETUP response carried no Session")])
    else
      (Bump(s).(peerSession := SessionOf(m), phase := Playing),
       [Send(Ask(s.nextCseq, "PLAY", Uri(cfg, s), SessionHeader(SessionOf(m)), "")), Play])
  }

  function AfterMessage(cfg: Config, s: State, m: Message, now: nat): (State, seq<Action>) {
    var heard := s.(lastHeard := Some(now));
    match m.start
    case Request(verb, _) => AfterRequest(cfg, heard, verb, m)
    case Response(status, _) => AfterResponse(cfg, heard, status, m)
  }

  /** The time since `t`, when there is one. */
  predicate AtLeast(t: Option<nat>, now: nat, gap: nat) { t.Some? && SatSub(now, t.value) >= gap }

  function AfterTick(cfg: Config, s: State, now: nat): (State, seq<Action>) {
    if s.phase.Done? then (s, [])
    else if AtLeast(s.lastHeard, now, KEEPALIVE_TIMEOUT + 1) then
      (s.(phase := Done), [Teardown("no keep-alive reply for 10 s")])
    else if AtLeast(if s.lastKeepalive.Some? then s.lastKeepalive else s.lastHeard, now, KEEPALIVE_EVERY) then
      (Bump(s).(lastKeepalive := Some(now)),
       [Send(Ask(s.nextCseq, "GET_PARAMETER", Uri(cfg, s), SessionHeader(s.peerSession), ""))])
    else (s, [])
  }

  function AfterBitrateWish(cfg: Config, s: State, kbps: u32): (State, seq<Action>) {
    if !s.phase.Playing? then (s, [])
    else
      (Bump(s), [Send(Ask(s.nextCseq, "SET_PARAMETER", Uri(cfg, s), SessionHeader(s.peerSession),
                          "microsoft_max_bitrate: " + Decimal(kbps) + CRLF))])
  }

  function AfterKeyframeWish(cfg: Config, s: State, now: nat): (State, seq<Action>) {
    if s.lastIdr.Some? && SatSub(now, s.lastIdr.value) < IDR_MIN_INTERVAL then (s, [])
    else
      (Bump(s).(lastIdr := Some(now)),
       [Send(Ask(s.nextCseq, "SET_PARAMETER", Uri(cfg, s), SessionHeader(s.peerSession), IDR_REQUEST))])
  }

  // ---- the object -------------------------------------------------------

  lemma {:induction false} RefusedStays(r: Reading, ps: seq<(string, string)>, i: nat)
    requires i <= |ps| && TakeParameters(r, ps[..i]).refused
    ensures TakeParameters(r, ps) == TakeParameters(r, ps[..i])
    decreases |ps|
  {
    if i < |ps| {
      assert ps[..|ps| - 1][..i] == ps[..i];
      RefusedStays(r, ps[..|ps| - 1], i);
    } else {
      assert ps[..i] == ps;
    }
  }

  class Negotiator {
    const cfg: Config
    var phase: Phase
    var nextCseq: nat
    var url: string
    var chosen: Option<VideoMode>
    var peerSession: Option<string>
    var lastHeard: Option<nat>
    var lastKeepalive: Option<nat>
    var lastIdr: Option<nat>

    ghost function Value(): State
      reads this
    {
      State(phase, nextCseq, url, chosen, peerSession, lastHeard, lastKeepalive, lastIdr)
    }

    constructor (cfg: Config)
      ensures Value() == FRESH && this.cfg == cfg
    {
      this.cfg := cfg;
      phase, nextCseq, url, chosen, peerSession := Init, FIRST_CSEQ, "", None, None;
      lastHeard, lastKeepalive, lastIdr := None, None, None;
    }

    method TakeCSeq() returns (c: nat)
      modifies this`nextCseq
      ensures c == old(nextCseq) && nextCseq == c + 1
    {
      c := nextCseq;
      nextCseq := c + 1;
    }

    method CurrentUri() returns (uri: string)
      ensures uri == Uri(cfg, Value())
    {
      uri := if url == "" then "rtsp://localhost/wfd1.0/" + cfg.sessionId else url;
    }

    method OnMessage(m: Message, now: nat) returns (out: seq<Action>)
      modifies this
      ensures (Value(), out) == AfterMessage(cfg, old(Value()), m, now)
    {
      lastHeard := Some(now);
      match m.start {
        case Request(verb, _) => out := OnRequest(verb, m);
        case Response(status, _) => out := OnResponse(status, m);
      }
    }

    method OnRequest(verb: string, m: Message) returns (out: seq<Action>)
      modifies this
      ensures (Value(), out) == AfterRequest(cfg, old(Value()), verb, m)
    {
      var cseq := CSeqOf(m);
      if verb == "OPTIONS" {
        var c := TakeCSeq();
        out := [Send(Reply(200, cseq, [("Public", PUBLIC)], "")),
                Send(Ask(c, "OPTIONS", "*", [("Require", "org.wfa.wfd1.0")], ""))];
      } else if verb == "GET_PARAMETER" {
        if Trim(m.body) == "" { return [Send(Reply(200, cseq, [], ""))]; }
        phase := Capabilities;
        out := [Send(Reply(200, cseq, [], cfg.capabilities))];
      } else if verb == "SET_PARAMETER" {
        out := OnSetParameter(cseq, m);
      } else if verb == "TEARDOWN" {
        phase := Done;
        out := [Send(Reply(200, cseq, [], "")), Teardown("source sent TEARDOWN")];
      } else {
        out := [Send(Reply(400, cseq, [], ""))];
      }
    }

    method OnSetParameter(cseq: nat, m: Message) returns (out: seq<Action>)
      modifies this
      ensures (Value(), out) == AfterSetParameter(cfg, old(Value()), cseq, m)
    {
      var ps := Parameters(SplitOn(m.body, '\n'));
      var trigger, refused := ReadParameters(ps);
      if refused { return [Send(Reply(400, cseq, [], ""))]; }
      var ok := Send(Reply(200, cseq, [], ""));
      if trigger != Some("SETUP") { return [ok]; }
      var uri := CurrentUri();
      var c := TakeCSeq();
      phase := Ready;
      var transport := ("Transport", "RTP/AVP/UDP;unicast;client_port=" + Decimal(cfg.rtpPort));
      out := [ok, Send(Ask(c, "SETUP", uri, [transport], ""))];
    }

    /** The parameter loop inside SET_PARAMETER. */
    method ReadParameters(ps: seq<(string, string)>) returns (trigger: Option<string>, refused: bool)
      modifies this
      ensures Reading(Value(), trigger, refused) == TakeParameters(Reading(old(Value()), None, false), ps)
    {
      trigger := None;
      ghost var start := Reading(Value(), None, false);
      for i := 0 to |ps|
        invariant Reading(Value(), trigger, false) == TakeParameters(start, ps[..i])
      {
        assert ps[..i + 1][..i] == ps[..i];
        var (name, value) := ps[i];
        if name == "wfd_video_formats" {
          var mode := ParseChosen(value);
          if mode.None? {
            RefusedStays(start, ps, i + 1);
            return trigger, true;
          }
          chosen := mode;
        } else if name == "wfd_presentation_URL" {
          var words := Words(value);
          url := if words == [] then "" else words[0];
        } else if name == "wfd_trigger_method" {
          trigger := Some(Trim(value));
        }
      }
      assert ps[..|ps|] == ps;
      refused := false;
    }

    method OnResponse(status: u16, m: Message) returns (out: seq<Action>)
      modifies this
      ensures (Value(), out) == AfterResponse(cfg, old(Value()), status, m)
    {
      if status != 200 { return [Teardown("source refused a request")]; }
      out := [];
      if phase.Ready? && peerSession.None? {
        var session := SessionOf(m);
        if session.None? { return [Teardown("SETUP response carried no Session")]; }
        var uri := CurrentUri();
        peerSession := session;
        var c := TakeCSeq();
        phase := Playing;
        out := [Send(Ask(c, "PLAY", uri, [("Session", session.value)], "")), Play];
      }
    }

    method Tick(now: nat) returns (out: seq<Action>)
      modifies this
      ensures (Value(), out) == AfterTick(cfg, old(Value()), now)
    {
      if phase.Done? { return []; }
      if lastHeard.Some? && SatSub(now, lastHeard.value) > KEEPALIVE_TIMEOUT {
        phase := Done;
        return [Teardown("no keep-alive reply for 10 s")];
      }
      var since := if lastKeepalive.Some? then lastKeepalive else lastHeard;
      out := [];
      if since.Some? && SatSub(now, since.value) >= KEEPALIVE_EVERY {
        lastKeepalive := Some(now);
        var uri := CurrentUri();
        var c := TakeCSeq();
        out := [Send(Ask(c, "GET_PARAMETER", uri, SessionHeader(peerSession), ""))];
      }
    }

    method RequestBitrate(kbps: u32) returns (out: seq<Action>)
      modifies this
      ensures (Value(), out) == AfterBitrateWish(cfg, old(Value()), kbps)
    {
      if !phase.Playing? { return []; }
      var uri := CurrentUri();
      var c := TakeCSeq();
      out := [Send(Ask(c, "SET_PARAMETER", uri, SessionHeader(peerSession),
                       "microsoft_max_bitrate: " + Decimal(kbps) + CRLF))];
    }

    method RequestIdr(now: nat) returns (out: seq<Action>)
      modifies this
      ensures (Value(), out) == AfterKeyframeWish(cfg, old(Value()), now)
    {
      if lastIdr.Some? && SatSub(now, lastIdr.value) < IDR_MIN_INTERVAL { return []; }
      lastIdr := Some(now);
      var uri := CurrentUri();
      var c := TakeCSeq();
      out := [Send(Ask(c, "SET_PARAMETER", uri, SessionHeader(peerSession), IDR_REQUEST))];
    }
  }
}
