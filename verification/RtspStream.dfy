/** What becomes of an RTSP byte stream that arrives in pieces: parsing is stable
    under appended bytes, so draining a buffer does not depend on how the stream was
    divided, as long as no partial buffer is taken for an oversized head. */
module RtspStream {
  import opened Common
  import opened Text
  import opened Rtsp

  /** The messages at the front of a buffer, what is left over, and whether draining
      stopped at bytes that do not parse (which empties the buffer). */
  datatype Taken = Taken(msgs: seq<Message>, rest: string, failed: bool)

  lemma ParseUses(buf: string)
    ensures Parse(buf).Ok? && Parse(buf).value.Some? ==> 4 <= Parse(buf).value.value.1 <= |buf|
  {
  }

  function Pushed(m: Message, t: Taken): Taken { t.(msgs := [m] + t.msgs) }

  /** One draining and then another. */
  function Joined(t: Taken, u: Taken): Taken { u.(msgs := t.msgs + u.msgs) }

  lemma PushedJoined(m: Message, t: Taken, u: Taken)
    ensures Pushed(m, Joined(t, u)) == Joined(Pushed(m, t), u)
  {
    assert ([m] + t.msgs) + u.msgs == [m] + (t.msgs + u.msgs);
  }

  lemma JoinedNothing(rest: string, u: Taken)
    ensures Joined(Taken([], rest, false), u) == u
  {
  }

  function Take(buf: string): Taken
    decreases |buf|
  {
    match Parse(buf)
    case Err(_) => Taken([], "", true)
    case Ok(None) => Taken([], buf, false)
    case Ok(Some((m, used))) =>
      ParseUses(buf);
      Pushed(m, Take(buf[used..]))
  }

  /** A whole message at the front. */
  predicate Holds(buf: string) { Parse(buf).Ok? && Parse(buf).value.Some? }

  function MessageOf(buf: string): Message
    requires Holds(buf)
  {
    Parse(buf).value.value.0
  }

  function Used(buf: string): (n: nat)
    requires Holds(buf)
    ensures 4 <= n <= |buf|
  {
    ParseUses(buf);
    Parse(buf).value.value.1
  }

  lemma BlankIsThere(buf: string)
    requires Holds(buf)
    ensures Find(buf, BLANK, 0).Some? && Find(buf, BLANK, 0).value + 4 <= Used(buf)
  {
    ParseFrom(buf, Find(buf, BLANK, 0).value);
  }

  /** Where the head of the message at the front ends. */
  function HeadEnd(buf: string): (e: nat)
    requires Holds(buf)
    ensures e + 4 <= Used(buf)
  {
    BlankIsThere(buf);
    Find(buf, BLANK, 0).value
  }

  lemma HeadEndIs(buf: string)
    requires Holds(buf)
    ensures var e := HeadEnd(buf);
      && Find(buf, BLANK, 0) == Some(e) && e <= MAX_HEADER_BYTES && e + 4 <= |buf|
      && Parse(buf) == ParseBody(buf, e, ParseHead(buf[..e]))
  {
    BlankIsThere(buf);
    ParseFrom(buf, HeadEnd(buf));
  }

  /** Parsing is stable: a message found at the front stays, whatever follows. */
  lemma ParseStable(a: string, b: string)
    requires Holds(a)
    ensures Parse(a + b) == Parse(a)
  {
    var e := HeadEnd(a);
    HeadEndIs(a);
    FindStable(a, BLANK, b);
    ParseFrom(a + b, e);
    assert (a + b)[..e] == a[..e];
    BodyStable(a, b, e, ParseHead(a[..e]));
  }

  lemma BodyStable(a: string, b: string, e: nat, head: Result<(StartLine, Headers, nat), ParseError>)
    requires e + 4 <= |a| && ParseBody(a, e, head).Ok? && ParseBody(a, e, head).value.Some?
    ensures ParseBody(a + b, e, head) == ParseBody(a, e, head)
  {
    assert (a + b)[e + 4..e + 4 + head.value.2] == a[e + 4..e + 4 + head.value.2];
  }

  /** What a message at the front leaves does not depend on how much came after it. */
  lemma TakeFirst(a: string, b: string)
    requires Holds(a)
    ensures Take(a + b) == Pushed(MessageOf(a), Take(a[Used(a)..] + b))
  {
    ParseStable(a, b);
    assert (a + b)[Used(a)..] == a[Used(a)..] + b;
  }

  lemma TakeRest(a: string)
    requires Holds(a)
    ensures Take(a) == Pushed(MessageOf(a), Take(a[Used(a)..]))
  {
  }

  /** Draining a buffer and then what is left with more behind it takes the same
      messages as draining the whole. */
  lemma {:induction false} TakeAppend(a: string, b: string)
    requires !Take(a).failed
    ensures Take(a + b) == Joined(Take(a), Take(Take(a).rest + b))
    decreases |a|
  {
    if Holds(a) {
      TakeFirst(a, b);
      TakeRest(a);
      TakeAppend(a[Used(a)..], b);
      PushedJoined(MessageOf(a), Take(a[Used(a)..]), Take(Take(a).rest + b));
    } else {
      JoinedNothing(a, Take(a + b));
    }
  }

  // ---- streams of whole messages ----------------------------------------

  /** Nothing but whole messages, one behind the other. */
  predicate Whole(s: string)
    decreases |s|
  {
    s == "" || (Holds(s) && Whole(s[Used(s)..]))
  }

  /** Every head ends three bytes short of the limit: the room its blank line needs
      while it is still arriving. */
  predicate HeadsFit(s: string)
    requires Whole(s)
    decreases |s|
  {
    s == "" || (HeadEnd(s) + 3 <= MAX_HEADER_BYTES && HeadsFit(s[Used(s)..]))
  }

  lemma EmptyTakes()
    ensures Take("") == Taken([], "", false)
  {
    FindIs("", BLANK, 0);
  }

  lemma {:induction false} WholeTakes(s: string)
    requires Whole(s)
    ensures !Take(s).failed && Take(s).rest == ""
    decreases |s|
  {
    if s == "" { EmptyTakes(); } else { WholeTakes(s[Used(s)..]); }
  }

  /** A message cut inside asks for more, or is refused when its head is over the
      limit before its blank line is there. */
  lemma CutMessage(s: string, n: nat)
    requires Holds(s) && n < Used(s)
    ensures Parse(s[..n]) == if n < HeadEnd(s) + 4 && n > MAX_HEADER_BYTES then Err(HeaderTooLarge) else Ok(None)
  {
    var e := HeadEnd(s);
    HeadEndIs(s);
    FindPrefix(s, BLANK, n);
    if e + 4 <= n {
      ParseFrom(s[..n], e);
      assert s[..n][..e] == s[..e];
    }
  }

  /** A message cut off from what follows it parses as before. */
  lemma CutAfter(s: string, n: nat)
    requires Holds(s) && Used(s) <= n <= |s|
    ensures Parse(s[..n]) == Parse(s) && s[..n][Used(s)..] == s[Used(s)..][..n - Used(s)]
  {
    var e := HeadEnd(s);
    HeadEndIs(s);
    FindPrefix(s, BLANK, n);
    ParseFrom(s[..n], e);
    assert s[..n][..e] == s[..e];
    BodyCut(s, n, e, ParseHead(s[..e]));
  }

  lemma BodyCut(s: string, n: nat, e: nat, head: Result<(StartLine, Headers, nat), ParseError>)
    requires e + 4 <= n <= |s| && head.Ok? && e + 4 + head.value.2 <= n
    ensures ParseBody(s[..n], e, head) == ParseBody(s, e, head)
  {
    assert s[..n][e + 4..e + 4 + head.value.2] == s[e + 4..e + 4 + head.value.2];
  }

  /** A cut behind the first message fails exactly when the cut in the rest does. */
  lemma CutFails(s: string, rest: string, k: nat)
    requires Holds(s) && rest == s[Used(s)..] && k <= |rest|
    ensures Take(s[..Used(s) + k]).failed <==> Take(rest[..k]).failed
  {
    hide Parse, Find, Take;
    var n := Used(s) + k;
    CutAfter(s, n);
    TakeRest(s[..n]);
    assert rest[..k] == s[Used(s)..][..n - Used(s)];
  }

  lemma CutIsClean(s: string, n: nat)
    requires Holds(s) && n < Used(s) && HeadEnd(s) + 3 <= MAX_HEADER_BYTES
    ensures !Take(s[..n]).failed
  {
    CutMessage(s, n);
  }

  /** No prefix of a stream whose heads fit is ever refused. */
  lemma {:induction false} PrefixIsClean(s: string, n: nat)
    requires Whole(s) && HeadsFit(s) && n <= |s|
    ensures !Take(s[..n]).failed
    decreases |s|
  {
    hide Parse, Find;
    if s == "" {
      EmptyTakes();
    } else if n < Used(s) {
      CutIsClean(s, n);
    } else {
      var rest, k := s[Used(s)..], n - Used(s);
      PrefixIsClean(rest, k);
      CutFails(s, rest, k);
    }
  }

  lemma CutInBlank(s: string)
    requires Holds(s) && HeadEnd(s) + 3 > MAX_HEADER_BYTES
    ensures Take(s[..HeadEnd(s) + 3]).failed
  {
    hide Parse, Find;
    CutMessage(s, HeadEnd(s) + 3);
  }

  /** But one with a longer head is, cut just before its blank line is complete. */
  lemma {:induction false} LongHeadFails(s: string) returns (n: nat)
    requires Whole(s) && !HeadsFit(s)
    ensures n <= |s| && Take(s[..n]).failed
    decreases |s|
  {
    hide Parse, Find;
    if HeadEnd(s) + 3 > MAX_HEADER_BYTES {
      CutInBlank(s);
      n := HeadEnd(s) + 3;
    } else {
      var rest := s[Used(s)..];
      var k := LongHeadFails(rest);
      CutFails(s, rest, k);
      n := Used(s) + k;
    }
  }

  // ---- printed streams --------------------------------------------------

  /** Legal messages, printed one behind the other. */
  function Printed(ms: seq<Message>): string {
    if ms == [] then "" else Format(ms[0]) + Printed(ms[1..])
  }

  /** The message a peer reads when we print this one. */
  function Received(m: Message): Message { m.(headers := m.headers + ContentHeaders(m.body)) }

  function ReceivedAll(ms: seq<Message>): seq<Message> {
    if ms == [] then [] else [Received(ms[0])] + ReceivedAll(ms[1..])
  }

  /** Legal, with room for the blank line. */
  predicate Sendable(m: Message) { Legal(m) && |Terminated(HeadLines(m))| - 2 + 3 <= MAX_HEADER_BYTES }

  lemma PrintedFirst(m: Message, more: string)
    requires Sendable(m)
    ensures var s := Format(m) + more;
      && Holds(s) && MessageOf(s) == Received(m) && Used(s) == |Format(m)| && s[Used(s)..] == more
      && HeadEnd(s) + 3 <= MAX_HEADER_BYTES
  {
    PrintThenParse(m, more);
    PrintedHeadEnd(m, more);
  }

  lemma BlankEndsText(t: string, body: string, text: string, more: string)
    requires NoBlankInside(t) && text == t + (CRLF + body)
    ensures Find(text + more, BLANK, 0) == Some(|t| - 2)
  {
    BlankEndsHead(t, body + more);
    assert text + more == t + (CRLF + (body + more));
  }

  lemma PrintedHeadEnd(m: Message, more: string)
    requires Legal(m)
    ensures Find(Format(m) + more, BLANK, 0) == Some(|Terminated(HeadLines(m))| - 2)
  {
    var _, t := PrintedHead(m);
    BlankEndsText(t, m.body, Format(m), more);
  }

  /** A printed stream is whole, its heads fit, and it holds just those messages. */
  lemma {:induction false} PrintedStream(ms: seq<Message>)
    requires forall i :: 0 <= i < |ms| ==> Sendable(ms[i])
    ensures Whole(Printed(ms)) && HeadsFit(Printed(ms)) && Take(Printed(ms)) == Taken(ReceivedAll(ms), "", false)
  {
    if ms == [] {
      EmptyTakes();
    } else {
      PrintedStream(ms[1..]);
      PrintedFirst(ms[0], Printed(ms[1..]));
    }
  }

  lemma StatusLine(reason: string)
    requires OneLine(reason)
    ensures |StartText(Response(200, reason))| == 13 + |reason|
  {
    assert Decimal(20) == Decimal(2) + [DigitChar(0)];
    assert Decimal(200) == Decimal(20) + [DigitChar(0)];
  }

  /** Such heads exist: a legal message that parses whole and not in pieces. */
  lemma LongHeadHappens() returns (m: Message)
    ensures Legal(m) && Whole(Format(m)) && !HeadsFit(Format(m))
  {
    var reason := seq(MAX_HEADER_BYTES - 13, _ => '0');
    m := Message(Response(200, reason), [], "");
    StatusLine(reason);
    var lines := HeadLines(m);
    assert lines == [StartText(m.start)];
    TerminatedSnoc([], StartText(m.start));
    assert [] + lines == lines && |Terminated(lines)| == MAX_HEADER_BYTES + 2;
    PrintThenParse(m, "");
    PrintedHeadEnd(m, "");
    assert Format(m) + "" == Format(m);
    assert Format(m)[|Format(m)|..] == "";
  }
}
