/** The texts of requests and replies, and that they are read as what was meant. */
module Messages {
  import opened Sequences
  import opened TaskQueues
  import opened Text
  import opened Uri
  import opened HttpMessages
  import opened HttpParsers

  const CRLF := "\r\n"

  function HeaderLine(line: string, rest: string): string {
    line + (CRLF + rest)
  }

  // ---------------------------------------------------------------------------
  // The texts
  // ---------------------------------------------------------------------------

  const HOST_FIELD := "Host: 127.0.0.1"
  const AGENT_FIELD := "User-Agent: DO-SDK-CPP"
  const VERSION := "HTTP/1.1"

  function RequestText(verb: string, url: string): string {
    HeaderLine(RequestLine(verb, url), RequestFields())
  }

  function RequestLine(verb: string, url: string): string {
    verb + " " + (url + " " + VERSION)
  }

  function RequestFields(): string {
    HeaderLine(HOST_FIELD, HeaderLine(AGENT_FIELD, HeaderLine("", "")))
  }

  /** The text of a request is streamed piece by piece; the URL was taken as a C string. */
  method Serialize(verb: string, url: string) returns (text: string)
    ensures text == RequestText(verb, CString(url))
  {
    var cUrl := CString(url);
    text := verb + " " + cUrl + " " + "HTTP/1.1\r\n";
    text := text + "Host: 127.0.0.1\r\n";
    text := text + "User-Agent: DO-SDK-CPP\r\n";
    text := text + "\r\n";
    Associates(verb + " " + cUrl + " ", VERSION, CRLF);
    Associates("", HOST_FIELD, CRLF);
    Associates("", AGENT_FIELD, CRLF);
    assert RequestLine(verb, cUrl) == verb + " " + cUrl + " " + VERSION;
    FourLines(RequestLine(verb, cUrl), HOST_FIELD, AGENT_FIELD, "");
  }

  lemma FourLines(a: string, b: string, c: string, d: string)
    ensures HeaderLine(a, HeaderLine(b, HeaderLine(c, d + CRLF))) == (a + CRLF) + (b + CRLF) + (c + CRLF) + (d + CRLF)
  {
    LineFirst(c, d + CRLF);
    LineFirst(b, (c + CRLF) + (d + CRLF));
    LineFirst(a, (b + CRLF) + ((c + CRLF) + (d + CRLF)));
    Concat4(a + CRLF, b + CRLF, c + CRLF, d + CRLF);
  }

  lemma LineFirst(a: string, rest: string)
    ensures HeaderLine(a, rest) == (a + CRLF) + rest
  {
  }

  function StatusName(statusCode: nat): (name: string)
    ensures Some1(name, IsWordChar) && '\r' !in name
  {
    match statusCode
    case 200 => "OK"
    case 400 => "BadRequest"
    case 404 => "NotFound"
    case 500 => "InternalError"
    case 503 => "ServiceUnavailable"
    case _ => "StatusDescription"
  }

  function StatusLine(statusCode: nat): string {
    VERSION + " " + (Decimal(statusCode) + " " + StatusName(statusCode))
  }

  function LengthField(n: nat): string {
    CONTENT_LENGTH + ": " + Decimal(n)
  }

  function ServerField(version: string): string {
    "Server: Delivery-Optimization-Agent/" + version
  }

  function ReplyText(statusCode: nat, body: string, version: string): string {
    var rest := HeaderLine(ServerField(version), HeaderLine("", body));
    HeaderLine(StatusLine(statusCode), if body == "" then rest else HeaderLine(LengthField(|body|), rest))
  }

  method Reply(statusCode: nat, body: string, version: string) returns (text: string)
    ensures text == ReplyText(statusCode, body, version)
  {
    text := VERSION + " " + Decimal(statusCode) + " " + StatusName(statusCode) + CRLF;
    assert VERSION + " " + (Decimal(statusCode) + " " + StatusName(statusCode))
        == VERSION + " " + Decimal(statusCode) + " " + StatusName(statusCode);
    if body != "" {
      text := text + (LengthField(|body|) + CRLF);
    }
    text := text + (ServerField(version) + CRLF);
    text := text + CRLF;
    if body != "" {
      text := text + body;
    }
    ReplyIsLines(statusCode, body, version);
  }

  lemma ReplyIsLines(statusCode: nat, body: string, version: string)
    ensures ReplyText(statusCode, body, version)
         == if body == "" then (StatusLine(statusCode) + CRLF) + (ServerField(version) + CRLF) + CRLF
            else (StatusLine(statusCode) + CRLF) + (LengthField(|body|) + CRLF) + (ServerField(version) + CRLF) + CRLF + body
  {
    var a, b, c := StatusLine(statusCode) + CRLF, LengthField(|body|) + CRLF, ServerField(version) + CRLF;
    LineFirst("", body);
    assert "" + CRLF == CRLF;
    LineFirst(ServerField(version), CRLF + body);
    LineFirst(LengthField(|body|), c + (CRLF + body));
    if body == "" {
      LineFirst(StatusLine(statusCode), c + (CRLF + body));
      assert CRLF + body == CRLF;
      assert a + (c + CRLF) == a + c + CRLF;
    } else {
      LineFirst(StatusLine(statusCode), b + (c + (CRLF + body)));
      Concat5(a, b, c, CRLF, body);
    }
  }

  lemma Concat5(a: string, b: string, c: string, d: string, e: string)
    ensures a + (b + (c + (d + e))) == a + b + c + d + e
  {
    Concat4(a, b, c, d + e);
    assert a + b + c + (d + e) == a + b + c + d + e;
  }

  // ---------------------------------------------------------------------------
  // Reading them
  // ---------------------------------------------------------------------------

  lemma HeadBegins(s: string, line: string, tail: string, p: Packet, stray: int)
    requires CutLine(s) == Line(line, tail) && ReadFirstLine(line, EMPTY_PACKET, stray) == Some(p)
    ensures ParseHead(s, EMPTY_PACKET, stray) == ParseFields(tail, p)
  {
  }

  lemma LineIsCut(line: string, rest: string)
    requires '\r' !in line
    ensures CutLine(HeaderLine(line, rest)) == Line(line, rest)
  {
    var s := HeaderLine(line, rest);
    assert forall i :: 0 <= i < |line| ==> s[i] == line[i];
    assert s[|line|] == '\r' && s[|line| + 1] == '\n';
    SpanAt(s, "\r", |line|);
    assert s[..|line|] == line && s[|line| + 2..] == rest;
  }

  lemma NotAPrefix(s: string, sub: string, c: char)
    requires c in sub && c !in s
    ensures !(sub <= s)
  {
    var i :| 0 <= i < |sub| && sub[i] == c;
    assert i < |s| ==> s[i] != sub[i];
  }

  lemma {:induction false} NotContained(s: string, sub: string, c: char)
    requires c in sub && c !in s
    ensures !Contains(s, sub)
  {
    NotAPrefix(s, sub, c);
    if s != "" {
      assert c !in s[1..];
      NotContained(s[1..], sub, c);
    }
  }

  /** A field without a certain letter of the content length's name is passed over. */
  lemma FieldIsPassed(field: string, rest: string, packet: Packet)
    requires field != "" && '\r' !in field && !Contains(field, CONTENT_LENGTH)
    ensures ParseFields(HeaderLine(field, rest), packet) == ParseFields(rest, packet)
  {
    LineIsCut(field, rest);
  }

  lemma BlankLineEnds(rest: string, packet: Packet)
    ensures ParseFields(HeaderLine("", rest), packet) == WholeHead(packet, rest)
  {
    LineIsCut("", rest);
  }

  lemma FieldWithoutLetter(field: string, rest: string, packet: Packet, c: char)
    requires field != "" && '\r' !in field && c in CONTENT_LENGTH && c !in field
    ensures ParseFields(HeaderLine(field, rest), packet) == ParseFields(rest, packet)
  {
    NotContained(field, CONTENT_LENGTH, c);
    FieldIsPassed(field, rest, packet);
  }

  lemma Letters()
    ensures 'L' in CONTENT_LENGTH && 'L' !in HOST_FIELD && 'L' !in AGENT_FIELD
    ensures '\r' !in HOST_FIELD && '\r' !in AGENT_FIELD
  {
    assert CONTENT_LENGTH[8] == 'L';
  }

  /** The fields the SDK sends say nothing. */
  lemma RequestFieldsArePassed(packet: Packet)
    ensures ParseFields(RequestFields(), packet) == WholeHead(packet, "")
  {
    Letters();
    TwoFieldsArePassed(HOST_FIELD, AGENT_FIELD, packet);
  }

  lemma TwoFieldsArePassed(host: string, agent: string, packet: Packet)
    requires host != "" && 'L' in CONTENT_LENGTH && 'L' !in host && '\r' !in host
    requires agent != "" && 'L' !in agent && '\r' !in agent
    ensures ParseFields(HeaderLine(host, HeaderLine(agent, HeaderLine("", ""))), packet) == WholeHead(packet, "")
  {
    FieldWithoutLetter(host, HeaderLine(agent, HeaderLine("", "")), packet, 'L');
    FieldWithoutLetter(agent, HeaderLine("", ""), packet, 'L');
    BlankLineEnds("", packet);
  }

  lemma RequestLineIsPlain(verb: string, url: string, version: string)
    requires Some1(verb, IsAlpha) && Some1(url, IsUrlChar) && Some1(version, IsVersionChar)
    ensures var line := verb + " " + (url + " " + version); '\r' !in line && CString(line) == line
  {
    var line := verb + " " + (url + " " + version);
    assert forall i :: 0 <= i < |line| ==> line[i] != '\r' && line[i] != NUL;
  }

  lemma RequestLineIsRead(verb: string, url: string, version: string)
    requires Some1(verb, IsAlpha) && Some1(url, IsUrlChar) && !IsDigit(url[0]) && Some1(version, IsVersionChar)
    ensures var line := verb + " " + (url + " " + version);
            MatchStatusLine(line) == None && MatchRequestLine(line) == Some((verb, url))
  {
    var line := verb + " " + (url + " " + version);
    assert IsRequestLine(line, verb, url, version);
    RequestLinePattern(line, verb, url);
    assert (url + " " + version)[0] == url[0];
    NotAStatusLine(verb, url + " " + version);
  }

  /** A line that begins with a word and a letter behind it, not a digit, is no status line. */
  lemma NotAStatusLine(verb: string, t: string)
    requires Some1(verb, IsAlpha)
    ensures t == "" || !IsDigit(t[0]) ==> MatchStatusLine(verb + " " + t) == None
  {
    var s := verb + " " + t;
    assert s[|verb|] == ' ';
    assert forall i :: 0 <= i < |verb| ==> s[i] == verb[i];
    var k := SpanWhile(s, IsVersionChar);
    assert s[|verb| + 1..] == t;
  }

  /** A message, by its first line and by its fields. */
  lemma MessageIsRead(line: string, fields: string, p: Packet, q: Packet, body: string, stray: int)
    requires '\r' !in line && ReadFirstLine(line, EMPTY_PACKET, stray) == Some(p)
    requires ParseFields(fields, p) == WholeHead(q, body) && q.contentLength == |body|
    ensures ParseMessage(HeaderLine(line, fields), stray) == Parsed(Complete, if body == "" then q else q.(body := body), "")
    ensures !Overlong(HeaderLine(line, fields), stray)
  {
    LineIsCut(line, fields);
    HeadBegins(HeaderLine(line, fields), line, fields, p, stray);
  }

  lemma RequestLineFacts(verb: string, url: string)
    requires Some1(verb, IsAlpha) && Some1(url, IsUrlChar) && !IsDigit(url[0])
    ensures var line := RequestLine(verb, url);
            && '\r' !in line && CString(line) == line
            && MatchStatusLine(line) == None && MatchRequestLine(line) == Some((verb, url))
  {
    RequestLineIsPlain(verb, url, VERSION);
    RequestLineIsRead(verb, url, VERSION);
  }

  lemma RequestFirstLine(verb: string, url: string, uri: Components, stray: int)
    requires Some1(verb, IsAlpha) && Some1(url, IsUrlChar) && !IsDigit(url[0]) && FromString(url, stray) == Some(uri)
    ensures '\r' !in RequestLine(verb, url)
    ensures ReadFirstLine(RequestLine(verb, url), EMPTY_PACKET, stray) == Some(EMPTY_PACKET.(verb := verb, url := uri))
  {
    RequestLineFacts(verb, url);
    UrlIsStored(RequestLine(verb, url), verb, url, uri, stray);
  }

  lemma UrlIsStored(line: string, verb: string, url: string, uri: Components, stray: int)
    requires CString(line) == line && MatchStatusLine(line) == None && MatchRequestLine(line) == Some((verb, url))
    requires FromString(url, stray) == Some(uri)
    ensures ReadFirstLine(line, EMPTY_PACKET, stray) == Some(EMPTY_PACKET.(verb := verb, url := uri))
  {
  }

  /** A serialised request is whole, and carries its method and its URL. */
  lemma RequestIsRead(verb: string, url: string, uri: Components, stray: int)
    requires Some1(verb, IsAlpha) && Some1(url, IsUrlChar) && !IsDigit(url[0]) && FromString(url, stray) == Some(uri)
    ensures ParseMessage(RequestText(verb, url), stray) == Parsed(Complete, EMPTY_PACKET.(verb := verb, url := uri), "")
    ensures !Overlong(RequestText(verb, url), stray)
  {
    RequestFirstLine(verb, url, uri, stray);
    RequestRest(RequestLine(verb, url), verb, uri, stray);
  }

  lemma RequestRest(line: string, verb: string, uri: Components, stray: int)
    requires '\r' !in line
    requires ReadFirstLine(line, EMPTY_PACKET, stray) == Some(EMPTY_PACKET.(verb := verb, url := uri))
    ensures ParseMessage(HeaderLine(line, RequestFields()), stray)
         == Parsed(Complete, EMPTY_PACKET.(verb := verb, url := uri), "")
    ensures !Overlong(HeaderLine(line, RequestFields()), stray)
  {
    var packet := EMPTY_PACKET.(verb := verb, url := uri);
    RequestFieldsArePassed(packet);
    MessageIsRead(line, RequestFields(), packet, packet, "", stray);
  }

  lemma StatusLineIsRead(statusCode: nat)
    ensures var line := StatusLine(statusCode);
            '\r' !in line && CString(line) == line && MatchStatusLine(line) == Some(Decimal(statusCode))
  {
    WordsAreStatusLine(VERSION, Decimal(statusCode), StatusName(statusCode));
  }

  lemma WordsAreOneLine(version: string, code: string, words: string)
    requires Some1(version, IsVersionChar) && Some1(code, IsDigit) && Some1(words, IsWordChar)
    ensures var line := version + " " + (code + " " + words); '\r' !in line && CString(line) == line
  {
    var line := version + " " + (code + " " + words);
    assert forall i :: 0 <= i < |line| ==> line[i] != '\r' && line[i] != NUL;
  }

  lemma WordsAreStatusLine(version: string, code: string, words: string)
    requires Some1(version, IsVersionChar) && Some1(code, IsDigit) && Some1(words, IsWordChar)
    ensures var line := version + " " + (code + " " + words);
            '\r' !in line && CString(line) == line && MatchStatusLine(line) == Some(code)
  {
    var line := version + " " + (code + " " + words);
    assert IsStatusLine(line, version, code, words);
    StatusLinePattern(line, code);
    WordsAreOneLine(version, code, words);
  }

  lemma DigitsBehind(digits: string)
    requires Some1(digits, IsDigit)
    ensures DigitsAfterColon(": " + digits) == digits
  {
    var t := " " + digits;
    assert (": " + digits)[1..] == t;
    SpanWhileAt(t, IsSpace, 1);
    assert t[1..] == digits;
    SpanWhileAt(digits, IsDigit, |digits|);
    assert digits[..|digits|] == digits;
  }

  lemma LengthIsFound(name: string, digits: string)
    requires Some1(digits, IsDigit)
    ensures LengthDigits(name + (": " + digits), 0) == Some(digits)
  {
    var field := name + (": " + digits);
    DigitsBehind(digits);
    assert field[|name|..] == ": " + digits;
    forall j | |name| + 1 <= j < |field| ensures DigitsAfterColon(field[j..]) == "" {
      assert field[j] == (": " + digits)[j - |name|] != ':';
    }
    assert IsLengthAt(field, |name|, digits);
    LengthPattern(field, digits);
  }

  lemma NameIsPlain()
    ensures forall i :: 0 <= i < |CONTENT_LENGTH| ==> CONTENT_LENGTH[i] !in "\r\n" && CONTENT_LENGTH[i] != NUL
  {
  }

  lemma LengthFieldIsPlain(name: string, digits: string)
    requires forall i :: 0 <= i < |name| ==> name[i] !in "\r\n" && name[i] != NUL
    requires Some1(digits, IsDigit)
    ensures var field := name + ": " + digits;
            field != "" && '\r' !in field && '\n' !in field && CString(field) == field
  {
    var field := name + ": " + digits;
    assert forall i :: 0 <= i < |field| ==> field[i] != '\r' && field[i] != '\n' && field[i] != NUL;
  }

  lemma BeginsWithName(name: string, rest: string)
    ensures Contains(name + rest, name)
  {
    assert (name + rest)[..|name|] == name;
  }

  lemma LengthIsStored(field: string, digits: string, rest: string, packet: Packet)
    requires field != "" && '\r' !in field && '\n' !in field && CString(field) == field && Contains(field, CONTENT_LENGTH)
    requires LengthDigits(field, 0) == Some(digits) && All(digits, IsDigit)
    ensures ParseFields(HeaderLine(field, rest), packet) == ParseFields(rest, packet.(contentLength := Strtoul(digits)))
  {
    LineIsCut(field, rest);
  }

  lemma LengthFieldIsPlainText(n: nat)
    ensures var field := LengthField(n);
            field != "" && '\r' !in field && '\n' !in field && CString(field) == field && Contains(field, CONTENT_LENGTH)
  {
    NameIsPlain();
    LengthFieldIsPlain(CONTENT_LENGTH, Decimal(n));
    BeginsWithName(CONTENT_LENGTH, ": " + Decimal(n));
    Associates(CONTENT_LENGTH, ": ", Decimal(n));
  }

  lemma LengthFieldIsRead(n: nat, rest: string, packet: Packet)
    requires n <= ULONG_MAX
    ensures ParseFields(HeaderLine(LengthField(n), rest), packet) == ParseFields(rest, packet.(contentLength := n))
  {
    LengthFieldIsPlainText(n);
    LengthIsFound(CONTENT_LENGTH, Decimal(n));
    Associates(CONTENT_LENGTH, ": ", Decimal(n));
    DecimalRoundTrip(n);
    LengthIsStored(LengthField(n), Decimal(n), rest, packet);
  }

  lemma ServerFieldIsPassed(version: string, rest: string, packet: Packet)
    requires '\r' !in version && !Contains(ServerField(version), CONTENT_LENGTH)
    ensures ParseFields(HeaderLine(ServerField(version), rest), packet) == ParseFields(rest, packet)
  {
    assert '\r' !in "Server: Delivery-Optimization-Agent/";
    FieldIsPassed(ServerField(version), rest, packet);
  }

  lemma ReplyFirstLine(statusCode: nat, stray: int)
    requires statusCode < UINT_RANGE
    ensures ReadFirstLine(StatusLine(statusCode), EMPTY_PACKET, stray) == Some(EMPTY_PACKET.(statusCode := statusCode))
  {
    StatusLineIsRead(statusCode);
    CodeIsRead(StatusLine(statusCode), statusCode, stray);
  }

  lemma CodeIsRead(line: string, statusCode: nat, stray: int)
    requires statusCode < UINT_RANGE && CString(line) == line && MatchStatusLine(line) == Some(Decimal(statusCode))
    ensures ReadFirstLine(line, EMPTY_PACKET, stray) == Some(EMPTY_PACKET.(statusCode := statusCode))
  {
    DecimalRoundTrip(statusCode);
  }

  function ReplyFields(body: string, version: string): string {
    var rest := HeaderLine(ServerField(version), HeaderLine("", body));
    if body == "" then rest else HeaderLine(LengthField(|body|), rest)
  }

  lemma ReplyFieldsAreRead(body: string, version: string, packet: Packet)
    requires '\r' !in version && !Contains(ServerField(version), CONTENT_LENGTH)
    requires packet.contentLength == 0 && |body| <= ULONG_MAX
    ensures ParseFields(ReplyFields(body, version), packet) == WholeHead(packet.(contentLength := |body|), body)
  {
    var rest := HeaderLine(ServerField(version), HeaderLine("", body));
    var p := packet.(contentLength := |body|);
    if body != "" {
      LengthFieldIsRead(|body|, rest, packet);
    }
    ServerFieldIsPassed(version, HeaderLine("", body), p);
    BlankLineEnds(body, p);
  }

  /** A reply is whole, and carries its status code and exactly its body. */
  lemma ReplyIsRead(statusCode: nat, body: string, version: string, stray: int)
    requires statusCode < UINT_RANGE && |body| <= ULONG_MAX
    requires '\r' !in version && !Contains(ServerField(version), CONTENT_LENGTH)
    ensures ParseMessage(ReplyText(statusCode, body, version), stray)
         == Parsed(Complete, EMPTY_PACKET.(statusCode := statusCode, contentLength := |body|, body := body), "")
    ensures !Overlong(ReplyText(statusCode, body, version), stray)
  {
    var packet := EMPTY_PACKET.(statusCode := statusCode);
    StatusLineIsRead(statusCode);
    ReplyFirstLine(statusCode, stray);
    ReplyFieldsAreRead(body, version, packet);
    MessageIsRead(StatusLine(statusCode), ReplyFields(body, version), packet, packet.(contentLength := |body|), body, stray);
  }

  /** However a reply is split: if it fits, status code and body arrive; if it does not, it is rejected. */
  lemma ReplyArrives(statusCode: nat, body: string, version: string, chunks: seq<string>, stray: int)
    requires statusCode < UINT_RANGE && |body| <= ULONG_MAX
    requires '\r' !in version && !Contains(ServerField(version), CONTENT_LENGTH)
    requires Flatten(chunks) == ReplyText(statusCode, body, version)
    ensures FeedAllBounded(chunks, stray)
         == if |ReplyText(statusCode, body, version)| <= CAPACITY
            then Parsed(Complete, EMPTY_PACKET.(statusCode := statusCode, contentLength := |body|, body := body), "")
            else Rejected
  {
    ReplyIsRead(statusCode, body, version, stray);
    CapacityIsTheOnlyBound(chunks, stray);
    ChunksMakeNoDifference(chunks, stray);
  }
}
