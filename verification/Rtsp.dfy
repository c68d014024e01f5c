/** RTSP/1.0 messages: parsing from the front of a buffer and printing (RFC 2326,
    sections 4, 6, 7 and 12.14). */
module Rtsp {
  import opened Common
  import opened Text

  const MAX_HEADER_BYTES: nat := 65536
  const MAX_BODY_BYTES: nat := 1_048_576
  const CRLF := "\r\n"
  const BLANK := "\r\n\r\n"

  datatype StartLine = Request(method_: string, uri: string) | Response(status: u16, reason: string)

  type Headers = seq<(string, string)>

  datatype Message = Message(start: StartLine, headers: Headers, body: string)

  datatype ParseError = MalformedStartLine | MalformedHeader | BadContentLength | HeaderTooLarge | BodyTooLarge

  // ---- parsing ----------------------------------------------------------

  /** `split("\r\n")`. */
  function Lines(s: string): (r: seq<string>)
    ensures r != []
    decreases |s|
  {
    match Find(s, CRLF, 0)
    case None => [s]
    case Some(j) => FindIs(s, CRLF, 0); [s[..j]] + Lines(s[j + 2..])
  }

  function ParseStartLine(line: string): Option<StartLine> {
    if "RTSP/1.0 " <= line then
      var rest := line[9..];
      var (code, reason) := if SplitOnce(rest, ' ').Some? then SplitOnce(rest, ' ').value else (rest, "");
      match ParseDecimal(code, 0x1_0000)
      case None => None
      case Some(status) => Some(Response(status, reason))
    else
      var parts := SplitOn(line, ' ');
      if parts[0] != "" && |parts| >= 3 && "RTSP/" <= parts[2] then Some(Request(parts[0], parts[1])) else None
  }

  /** Each non-empty line as a trimmed name and value; `None` without a colon. */
  function ParseHeaders(lines: seq<string>): Option<Headers> {
    if lines == [] then Some([])
    else
      var front, line := ParseHeaders(lines[..|lines| - 1]), lines[|lines| - 1];
      if front.None? || line == "" then front
      else
        match SplitOnce(line, ':')
        case None => None
        case Some((k, v)) => Some(front.value + [(Trim(k), Trim(v))])
  }

  /** The first header of this name. */
  function HeaderOf(hs: Headers, name: string): Option<string> {
    if hs == [] then None
    else if SameIgnoringCase(hs[0].0, name) then Some(hs[0].1)
    else HeaderOf(hs[1..], name)
  }

  const USIZE_LIMIT: nat := 0x1_0000_0000_0000_0000

  /** The head, once its end is known. */
  function ParseHead(head: string): Result<(StartLine, Headers, nat), ParseError> {
    var lines := Lines(head);
    match ParseStartLine(lines[0])
    case None => Err(MalformedStartLine)
    case Some(start) =>
      match ParseHeaders(lines[1..])
      case None => Err(MalformedHeader)
      case Some(headers) =>
        match HeaderOf(headers, "content-length")
        case None => Ok((start, headers, 0))
        case Some(v) =>
          match ParseDecimal(Trim(v), USIZE_LIMIT)
          case None => Err(BadContentLength)
          case Some(n) => if n > MAX_BODY_BYTES then Err(BodyTooLarge) else Ok((start, headers, n))
  }

  /** The body, once the head is read. */
  function ParseBody(buf: string, headEnd: nat, head: Result<(StartLine, Headers, nat), ParseError>):
    Result<Option<(Message, nat)>, ParseError>
    requires headEnd + 4 <= |buf|
  {
    match head
    case Err(e) => Err(e)
    case Ok((start, headers, n)) =>
      var bodyStart := headEnd + 4;
      if |buf| < bodyStart + n then Ok(None)
      else Ok(Some((Message(start, headers, buf[bodyStart..bodyStart + n]), bodyStart + n)))
  }

  /** One message from the front of `buf` and the bytes it takes; `Ok(None)` asks
      for more. */
  function Parse(buf: string): Result<Option<(Message, nat)>, ParseError> {
    match Find(buf, BLANK, 0)
    case None => if |buf| > MAX_HEADER_BYTES then Err(HeaderTooLarge) else Ok(None)
    case Some(headEnd) =>
      FindIs(buf, BLANK, 0);
      if headEnd > MAX_HEADER_BYTES then Err(HeaderTooLarge)
      else ParseBody(buf, headEnd, ParseHead(buf[..headEnd]))
  }

  /** The header loop inside `parse`. */
  method ReadHeaders(lines: seq<string>) returns (r: Option<Headers>)
    ensures r == ParseHeaders(lines)
  {
    var headers: Headers := [];
    for i := 0 to |lines|
      invariant ParseHeaders(lines[..i]) == Some(headers)
    {
      assert lines[..i + 1][..i] == lines[..i];
      var line := lines[i];
      if line == "" { continue; }
      var split := SplitOnce(line, ':');
      if split.None? {
        NoHeaders(lines, i + 1);
        return None;
      }
      headers := headers + [(Trim(split.value.0), Trim(split.value.1))];
    }
    assert lines[..|lines|] == lines;
    r := Some(headers);
  }

  lemma {:induction false} NoHeaders(lines: seq<string>, i: nat)
    requires i <= |lines| && ParseHeaders(lines[..i]).None?
    ensures ParseHeaders(lines).None?
    decreases |lines|
  {
    if i < |lines| {
      assert lines[..|lines| - 1][..i] == lines[..i];
      NoHeaders(lines[..|lines| - 1], i);
    } else {
      assert lines[..i] == lines;
    }
  }

  // ---- printing ---------------------------------------------------------

  function StartText(s: StartLine): string {
    match s
    case Request(m, uri) => m + [' '] + (uri + [' '] + "RTSP/1.0")
    case Response(status, reason) => "RTSP/1.0 " + (Decimal(status) + [' '] + reason)
  }

  function HeaderText(h: (string, string)): string { h.0 + [':'] + ([' '] + h.1) }

  /** The content headers printing adds for a body. */
  function ContentHeaders(body: string): Headers {
    if body == "" then [] else [("Content-Type", "text/parameters"), ("Content-Length", Decimal(|body|))]
  }

  function HeaderTexts(hs: Headers): seq<string> {
    seq(|hs|, i requires 0 <= i < |hs| => HeaderText(hs[i]))
  }

  /** Each line followed by CRLF. */
  function Terminated(lines: seq<string>): string {
    if lines == [] then "" else Terminated(lines[..|lines| - 1]) + (lines[|lines| - 1] + CRLF)
  }

  function HeadLines(m: Message): seq<string> {
    [StartText(m.start)] + HeaderTexts(m.headers + ContentHeaders(m.body))
  }

  function Format(m: Message): string { Terminated(HeadLines(m)) + (CRLF + m.body) }

  lemma {:induction false} TerminatedAppend(a: seq<string>, b: seq<string>)
    ensures Terminated(a + b) == Terminated(a) + Terminated(b)
  {
    if b == [] {
      assert a + b == a;
    } else {
      TerminatedAppend(a, b[..|b| - 1]);
      assert (a + b)[..|a + b| - 1] == a + b[..|b| - 1];
      assert Terminated(a + b) == Terminated(a) + (Terminated(b[..|b| - 1]) + (b[|b| - 1] + CRLF));
    }
  }

  lemma TerminatedSnoc(lines: seq<string>, line: string)
    ensures Terminated(lines + [line]) == Terminated(lines) + (line + CRLF)
  {
    assert (lines + [line])[..|lines|] == lines;
  }

  lemma HeaderTextsSnoc(hs: Headers, h: (string, string))
    ensures HeaderTexts(hs + [h]) == HeaderTexts(hs) + [HeaderText(h)]
  {
  }

  /** Text of a start line and some headers, one more header at a time. */
  lemma HeadTextSnoc(start: string, hs: Headers, h: (string, string))
    ensures Terminated([start] + HeaderTexts(hs + [h]))
         == Terminated([start] + HeaderTexts(hs)) + (HeaderText(h) + CRLF)
  {
    HeaderTextsSnoc(hs, h);
    assert [start] + (HeaderTexts(hs) + [HeaderText(h)]) == ([start] + HeaderTexts(hs)) + [HeaderText(h)];
    TerminatedSnoc([start] + HeaderTexts(hs), HeaderText(h));
  }

  /** The writing loop inside `format`. */
  method WriteHeaders(text: string, start: string, before: Headers, hs: Headers) returns (s: string)
    requires text == Terminated([start] + HeaderTexts(before))
    ensures s == Terminated([start] + HeaderTexts(before + hs))
  {
    s := text;
    assert before + hs[..0] == before;
    for i := 0 to |hs|
      invariant s == Terminated([start] + HeaderTexts(before + hs[..i]))
    {
      HeadTextSnoc(start, before + hs[..i], hs[i]);
      assert before + hs[..i + 1] == (before + hs[..i]) + [hs[i]];
      s := s + (hs[i].0 + [':'] + ([' '] + hs[i].1) + CRLF);
    }
    assert hs[..|hs|] == hs;
  }

  method FormatMessage(m: Message) returns (s: string)
    ensures s == Format(m)
  {
    var start := StartText(m.start);
    s := start + CRLF;
    TerminatedSnoc([], start);
    assert [] + [start] == [start] && "" + (start + CRLF) == s;
    assert [start] + HeaderTexts([]) == [start];
    s := WriteHeaders(s, start, [], m.headers);
    assert [] + m.headers == m.headers;
    s := WriteHeaders(s, start, m.headers, ContentHeaders(m.body));
    s := s + (CRLF + m.body);
  }

  // ---- printing and parsing are inverse ---------------------------------

  predicate OneLine(s: string) { '\r' !in s && '\n' !in s }

  /** No CR or LF, and not empty. */
  predicate Plain(line: string) { line != "" && OneLine(line) }

  predicate LegalStart(s: StartLine) {
    match s
    case Request(m, uri) => OneLine(m) && OneLine(uri) && m != "" && m != "RTSP/1.0" && ' ' !in m && ' ' !in uri
    case Response(_, reason) => OneLine(reason)
  }

  predicate LegalHeader(h: (string, string)) {
    && OneLine(h.0) && OneLine(h.1) && Trimmed(h.0) && Trimmed(h.1) && ':' !in h.0
    && !SameIgnoringCase(h.0, "content-length")
  }

  /** Its head can be told from what it is printed as. */
  predicate Printable(m: Message) {
    && LegalStart(m.start) && (forall i :: 0 <= i < |m.headers| ==> LegalHeader(m.headers[i]))
    && |Terminated(HeadLines(m))| - 2 <= MAX_HEADER_BYTES && |m.body| < USIZE_LIMIT
  }

  predicate Legal(m: Message) { Printable(m) && |m.body| <= MAX_BODY_BYTES }

  lemma VersionIsWord()
    ensures ' ' !in "RTSP/1.0" && "RTSP/" <= "RTSP/1.0" && OneLine("RTSP/1.0")
  {
  }

  lemma ThreeWords(a: string, b: string, c: string)
    requires ' ' !in a && ' ' !in b && ' ' !in c
    ensures SplitOn(a + [' '] + (b + [' '] + c), ' ') == [a, b, c]
  {
    SplitOnAt(a, ' ', b + [' '] + c);
    SplitOnAt(b, ' ', c);
    SplitOnAt(c, ' ', "");
  }

  lemma OneLineWords(a: string, c: char, b: string)
    requires OneLine(a) && OneLine(b) && c != '\r' && c != '\n'
    ensures OneLine(a + [c] + b)
  {
  }

  lemma RequestRoundTrip(m: string, uri: string)
    requires LegalStart(Request(m, uri))
    ensures ParseStartLine(StartText(Request(m, uri))) == Some(Request(m, uri)) && Plain(StartText(Request(m, uri)))
  {
    var version := "RTSP/1.0";
    VersionIsWord();
    ThreeWords(m, uri, version);
    OneLineWords(uri, ' ', version);
    OneLineWords(m, ' ', uri + [' '] + version);
    var line := m + [' '] + (uri + [' '] + version);
    assert StartText(Request(m, uri)) == line;
    if "RTSP/1.0 " <= line { PrefixOfWords(m, uri + [' '] + version); }
  }

  lemma DecimalIsWord(n: nat)
    ensures ' ' !in Decimal(n) && OneLine(Decimal(n))
  {
    ParseDecimalOf(n, n + 1);
    forall c | c in Decimal(n) ensures c != '\r' && c != '\n' && c != ' ' { assert IsDigit(c); }
  }

  lemma PrefixedLine(prefix: string, rest: string)
    requires OneLine(prefix) && OneLine(rest) && prefix != ""
    ensures Plain(prefix + rest) && (prefix + rest)[|prefix|..] == rest && prefix <= prefix + rest
  {
  }

  lemma ResponseRoundTrip(status: u16, reason: string)
    requires OneLine(reason)
    ensures ParseStartLine(StartText(Response(status, reason))) == Some(Response(status, reason))
    ensures Plain(StartText(Response(status, reason)))
  {
    var rest := Decimal(status) + [' '] + reason;
    DecimalIsWord(status);
    ParseDecimalOf(status, 0x1_0000);
    SplitOnceAt(Decimal(status), ' ', reason);
    OneLineWords(Decimal(status), ' ', reason);
    PrefixedLine("RTSP/1.0 ", rest);
  }

  lemma StartRoundTrip(s: StartLine)
    requires LegalStart(s)
    ensures ParseStartLine(StartText(s)) == Some(s) && Plain(StartText(s))
  {
    match s
    case Request(m, uri) => RequestRoundTrip(m, uri);
    case Response(status, reason) => ResponseRoundTrip(status, reason);
  }

  /** A line beginning with the version token has it as its first word. */
  lemma PrefixOfWords(word: string, rest: string)
    requires ' ' !in word && "RTSP/1.0 " <= word + [' '] + rest
    ensures word == "RTSP/1.0"
  {
    var line := word + [' '] + rest;
    IndexOfFirst(word, ' ', rest);
    assert line == "RTSP/1.0" + [' '] + line[9..];
    IndexOfFirst("RTSP/1.0", ' ', line[9..]);
    assert word == line[..8];
  }

  // the head

  predicate AllPlain(lines: seq<string>) { forall i :: 0 <= i < |lines| ==> Plain(lines[i]) }

  /** Ends with CRLF, and never has a CR two places after a CR. */
  predicate NoBlankInside(t: string) {
    && |t| >= 2 && t[|t| - 2..] == CRLF && t[0] != '\r'
    && forall j :: 0 <= j && j + 2 < |t| && t[j] == '\r' ==> t[j + 2] != '\r'
  }

  lemma NoBlankSnoc(t: string, line: string)
    requires Plain(line) && (t == "" || NoBlankInside(t))
    ensures NoBlankInside(t + (line + CRLF))
  {
    var u := t + (line + CRLF);
    assert u[|u| - 2..] == CRLF;
    assert line[0] in line;
    forall j | |t| <= j < |t| + |line| ensures u[j] != '\r' {
      assert u[j] == line[j - |t|] && line[j - |t|] in line;
    }
    assert t != "" ==> t[|t| - 2] == t[|t| - 2..][0] && t[|t| - 1] == t[|t| - 2..][1];
  }

  lemma {:induction false} NoBlankLines(lines: seq<string>)
    requires lines != [] && AllPlain(lines)
    ensures NoBlankInside(Terminated(lines))
  {
    var front := lines[..|lines| - 1];
    if front != [] { NoBlankLines(front); }
    NoBlankSnoc(Terminated(front), lines[|lines| - 1]);
  }

  lemma MatchChars(s: string, pat: string, j: nat)
    ensures MatchAt(s, pat, j) ==> forall i :: 0 <= i < |pat| ==> s[j + i] == pat[i]
  {
    if MatchAt(s, pat, j) {
      var m := s[j..j + |pat|];
      assert forall i :: 0 <= i < |pat| ==> m[i] == s[j + i];
    }
  }

  /** No blank line starts before the final CRLF. */
  lemma NotBlankAt(t: string, rest: string, j: nat)
    requires NoBlankInside(t) && j + 2 < |t|
    ensures !MatchAt(t + rest, BLANK, j)
  {
    assert (t + rest)[j] == t[j] && (t + rest)[j + 2] == t[j + 2];
    MatchChars(t + rest, BLANK, j);
  }

  lemma BlankAt(front: string, rest: string)
    ensures MatchAt((front + CRLF) + (CRLF + rest), BLANK, |front|)
  {
    var u := (front + CRLF) + (CRLF + rest);
    assert u[|front|..|front| + 4] == BLANK;
  }

  /** The first blank line is the one that ends the head. */
  lemma BlankEndsHead(t: string, rest: string)
    requires NoBlankInside(t)
    ensures Find(t + (CRLF + rest), BLANK, 0) == Some(|t| - 2)
  {
    BlankAt(t[..|t| - 2], rest);
    assert t == t[..|t| - 2] + CRLF;
    forall j | 0 <= j < |t| - 2 ensures !MatchAt(t + (CRLF + rest), BLANK, j) { NotBlankAt(t, CRLF + rest, j); }
    FindUnique(t + (CRLF + rest), BLANK, 0, |t| - 2);
  }

  /** The lines with CRLF between them. */
  function HeadText(lines: seq<string>): string
    requires lines != []
  {
    if |lines| == 1 then lines[0] else lines[0] + (CRLF + HeadText(lines[1..]))
  }

  lemma {:induction false} HeadTextTerminated(lines: seq<string>)
    requires lines != []
    ensures Terminated(lines) == HeadText(lines) + CRLF
  {
    TerminatedSnoc([], lines[0]);
    assert [] + [lines[0]] == [lines[0]];
    assert Terminated([lines[0]]) == lines[0] + CRLF;
    if |lines| == 1 {
      assert lines == [lines[0]];
    } else {
      HeadTextTerminated(lines[1..]);
      TerminatedAppend([lines[0]], lines[1..]);
      assert lines == [lines[0]] + lines[1..];
      assert (lines[0] + CRLF) + (HeadText(lines[1..]) + CRLF) == (lines[0] + (CRLF + HeadText(lines[1..]))) + CRLF;
    }
  }

  lemma NoCrlfInLine(line: string)
    requires OneLine(line)
    ensures Find(line, CRLF, 0) == None
  {
    FindIs(line, CRLF, 0);
    forall j: nat ensures !MatchAt(line, CRLF, j) {
      assert j < |line| ==> line[j] in line;
      MatchChars(line, CRLF, j);
    }
  }

  lemma CrlfEndsLine(line: string, rest: string)
    requires OneLine(line)
    ensures Find(line + (CRLF + rest), CRLF, 0) == Some(|line|)
  {
    var u := line + (CRLF + rest);
    assert u[|line|..|line| + 2] == CRLF;
    forall j | 0 <= j < |line| ensures !MatchAt(u, CRLF, j) {
      assert u[j] == line[j] && line[j] in line;
      MatchChars(u, CRLF, j);
    }
    FindUnique(u, CRLF, 0, |line|);
  }

  lemma {:induction false} LinesOfHead(lines: seq<string>)
    requires lines != [] && AllPlain(lines)
    ensures Lines(HeadText(lines)) == lines
  {
    if |lines| == 1 {
      NoCrlfInLine(lines[0]);
    } else {
      LinesOfHead(lines[1..]);
      CrlfEndsLine(lines[0], HeadText(lines[1..]));
      var h := HeadText(lines);
      assert h[..|lines[0]|] == lines[0] && h[|lines[0]| + 2..] == HeadText(lines[1..]);
      assert lines == [lines[0]] + lines[1..];
    }
  }

  // the headers

  predicate Readable(h: (string, string)) {
    OneLine(h.0) && OneLine(h.1) && Trimmed(h.0) && Trimmed(h.1) && ':' !in h.0
  }

  lemma HeaderRoundTrip(h: (string, string))
    requires Readable(h)
    ensures SplitOnce(HeaderText(h), ':') == Some((h.0, [' '] + h.1))
    ensures Trim(h.0) == h.0 && Trim([' '] + h.1) == h.1 && Plain(HeaderText(h))
  {
    SplitOnceAt(h.0, ':', [' '] + h.1);
    TrimTrimmed(h.0);
    TrimTrimmed(h.1);
    OneLineWords("", ' ', h.1);
    assert "" + [' '] + h.1 == [' '] + h.1;
    OneLineWords(h.0, ':', [' '] + h.1);
  }

  lemma {:induction false} HeadersRoundTrip(hs: Headers)
    requires forall i :: 0 <= i < |hs| ==> Readable(hs[i])
    ensures ParseHeaders(HeaderTexts(hs)) == Some(hs) && AllPlain(HeaderTexts(hs))
  {
    if hs != [] {
      var front, h := hs[..|hs| - 1], hs[|hs| - 1];
      HeadersRoundTrip(front);
      HeaderRoundTrip(h);
      HeaderTextsSnoc(front, h);
      assert front + [h] == hs;
      assert HeaderTexts(hs)[..|hs| - 1] == HeaderTexts(front);
    }
  }

  lemma ContentTypeReadable()
    ensures Readable(("Content-Type", "text/parameters"))
  {
  }

  lemma ContentLengthReadable(n: string)
    requires OneLine(n) && Trimmed(n)
    ensures Readable(("Content-Length", n))
  {
  }

  lemma ContentHeadersReadable(body: string)
    ensures forall i :: 0 <= i < |ContentHeaders(body)| ==> Readable(ContentHeaders(body)[i])
  {
    var n := Decimal(|body|);
    ParseDecimalOf(|body|, |body| + 1);
    DecimalIsWord(|body|);
    ContentTypeReadable();
    ContentLengthReadable(n);
  }

  lemma ContentLengthName()
    ensures SameIgnoringCase("Content-Length", "content-length") && !SameIgnoringCase("Content-Type", "content-length")
  {
    var a, b := "Content-Length", "content-length";
    assert Lower(a[0]) == b[0] && Lower(a[8]) == b[8];
  }

  lemma {:induction false} HeaderOfAppend(a: Headers, b: Headers, name: string)
    requires forall i :: 0 <= i < |a| ==> !SameIgnoringCase(a[i].0, name)
    ensures HeaderOf(a + b, name) == HeaderOf(b, name)
  {
    if a == [] {
      assert a + b == b;
    } else {
      HeaderOfAppend(a[1..], b, name);
      assert (a + b)[1..] == a[1..] + b;
    }
  }

  lemma DeclaredLength(m: Message)
    requires forall i :: 0 <= i < |m.headers| ==> LegalHeader(m.headers[i])
    ensures HeaderOf(m.headers + ContentHeaders(m.body), "content-length")
         == if m.body == "" then None else Some(Decimal(|m.body|))
  {
    HeaderOfAppend(m.headers, ContentHeaders(m.body), "content-length");
    ContentLengthName();
    if m.body != "" {
      var c := ContentHeaders(m.body);
      assert c[1..] == [("Content-Length", Decimal(|m.body|))];
    }
  }

  lemma AllReadable(m: Message)
    requires forall i :: 0 <= i < |m.headers| ==> LegalHeader(m.headers[i])
    ensures forall i :: 0 <= i < |m.headers + ContentHeaders(m.body)| ==>
              Readable((m.headers + ContentHeaders(m.body))[i])
  {
    ContentHeadersReadable(m.body);
  }

  /** What a printed head says: start line, headers and the length of the body, unless that
      is over the limit. */
  function Declares(m: Message): Result<(StartLine, Headers, nat), ParseError> {
    if |m.body| > MAX_BODY_BYTES then Err(BodyTooLarge) else Ok((m.start, m.headers + ContentHeaders(m.body), |m.body|))
  }

  lemma HeadRoundTrip(m: Message)
    requires Printable(m)
    ensures AllPlain(HeadLines(m))
    ensures ParseHead(HeadText(HeadLines(m))) == Declares(m)
  {
    hide Trim, Lines, ParseStartLine, ParseHeaders, HeaderOf, ParseDecimal, ContentHeaders, LegalStart, LegalHeader;
    var lines, hs := HeadLines(m), m.headers + ContentHeaders(m.body);
    StartRoundTrip(m.start);
    AllReadable(m);
    HeadersRoundTrip(hs);
    LinesOfHead(lines);
    assert lines[1..] == HeaderTexts(hs);
    DeclaredLength(m);
    ParseDecimalOf(|m.body|, USIZE_LIMIT);
    TrimTrimmed(Decimal(|m.body|));
  }

  /** Parsing, once the blank line is known to be first at `e`. */
  lemma ParseFrom(buf: string, e: nat)
    requires Find(buf, BLANK, 0) == Some(e) && e <= MAX_HEADER_BYTES
    ensures e + 4 <= |buf| && Parse(buf) == ParseBody(buf, e, ParseHead(buf[..e]))
  {
    FindIs(buf, BLANK, 0);
  }

  /** Where the parts of a printed message are. */
  lemma Pieces(head: string, t: string, body: string, more: string)
    requires t == head + CRLF
    ensures var buf := (t + (CRLF + body)) + more;
      && buf == t + (CRLF + (body + more)) && buf[..|t| - 2] == head && buf[|t| + 2..|t| + 2 + |body|] == body
  {
  }

  /** A head followed by a blank line and a body of the length it declares. */
  lemma ParseText(head: string, t: string, start: StartLine, headers: Headers, body: string, text: string, more: string)
    requires text == t + (CRLF + body) && t == head + CRLF && NoBlankInside(t) && |head| <= MAX_HEADER_BYTES
    requires ParseHead(head) == Ok((start, headers, |body|))
    ensures Parse(text + more) == Ok(Some((Message(start, headers, body), |text|)))
  {
    BlankEndsHead(t, body + more);
    Pieces(head, t, body, more);
    ParseFrom(text + more, |t| - 2);
  }

  /** A printed message as a head, a blank line and a body. */
  lemma PrintedHead(m: Message) returns (head: string, t: string)
    requires Printable(m)
    ensures t == head + CRLF && NoBlankInside(t) && |head| <= MAX_HEADER_BYTES
    ensures t == Terminated(HeadLines(m))
    ensures ParseHead(head) == Declares(m)
    ensures Format(m) == t + (CRLF + m.body)
  {
    head, t := HeadText(HeadLines(m)), Terminated(HeadLines(m));
    HeadRoundTrip(m);
    NoBlankLines(HeadLines(m));
    HeadTextTerminated(HeadLines(m));
  }

  /** The limit on the body is checked before there is any of it: a message that declares
      more is refused as soon as its head is there. */
  lemma OversizeRefused(m: Message, more: string)
    requires Printable(m) && |m.body| > MAX_BODY_BYTES
    ensures var t := Terminated(HeadLines(m)); Parse(t + CRLF + more) == Err(BodyTooLarge)
  {
    hide Parse, ParseHead, HeadLines, Terminated, NoBlankInside, Find;
    var head, t := PrintedHead(m);
    BlankEndsHead(t, more);
    HeadInFront(head, t, more);
    ParseFrom(t + (CRLF + more), |t| - 2);
  }

  lemma HeadInFront(head: string, t: string, more: string)
    requires t == head + CRLF
    ensures t + (CRLF + more) == t + CRLF + more && (t + (CRLF + more))[..|t| - 2] == head
  {
  }

  /** A head is read exactly when each of its header lines has a colon. */
  lemma {:induction false} HeadersReadExactly(lines: seq<string>)
    ensures ParseHeaders(lines).None? <==> exists i :: 0 <= i < |lines| && lines[i] != "" && ':' !in lines[i]
  {
    hide Trim;
    if lines != [] {
      var k := |lines| - 1;
      HeadersReadExactly(lines[..k]);
      IndexOfIs(lines[k], ':');
      assert forall i :: 0 <= i < k ==> lines[..k][i] == lines[i];
    }
  }

  /** Printing and parsing are inverse: for every legal message, whatever follows it
      in the buffer, parsing takes exactly the printed bytes and returns the same
      start line, headers (with the two content headers printing adds for a body)
      and body. */
  lemma PrintThenParse(m: Message, more: string)
    requires Legal(m)
    ensures Parse(Format(m) + more)
         == Ok(Some((m.(headers := m.headers + ContentHeaders(m.body)), |Format(m)|)))
  {
    var head, t := PrintedHead(m);
    ParseText(head, t, m.start, m.headers + ContentHeaders(m.body), m.body, Format(m), more);
  }
}
