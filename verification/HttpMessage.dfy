/** What an HTTP message is to the agent and the SDK: one line, fields, and perhaps a body. */
module HttpMessages {
  import opened TaskQueues
  import opened Text
  import opened Uri

  const ULONG_MAX := 0xffff_ffff_ffff_ffff
  const UINT_RANGE := 0x1_0000_0000

  datatype Packet = Packet(verb: string, url: Components, statusCode: nat, contentLength: nat, body: string)

  const EMPTY_PACKET := Packet("", NOTHING, 0, 0, "")

  datatype ParserState = FirstLine | Fields | Body | Complete

  /** What the input so far amounts to: an exception, or a state with what has been read and what has not. */
  datatype Outcome = Rejected | Parsed(state: ParserState, packet: Packet, rest: string)

  // ---------------------------------------------------------------------------
  // Lines
  // ---------------------------------------------------------------------------

  datatype Cut = NeedMore | Malformed | Line(line: string, tail: string)

  /** The first line of the input. A carriage return must be followed by a line feed. */
  function CutLine(s: string): (r: Cut)
    ensures r.Line? ==> |r.tail| < |s|
  {
    var k := Span(s, "\r");
    if k + 1 >= |s| then NeedMore
    else if s[k + 1] != '\n' then Malformed
    else Line(s[..k], s[k + 2..])
  }

  // ---------------------------------------------------------------------------
  // The first line
  // ---------------------------------------------------------------------------

  predicate IsVersionChar(c: char) {
    c == 'h' || c == 'H' || c == 't' || c == 'T' || c == 'p' || c == 'P' || c == '/' || c == '1' || c == '.'
  }

  predicate IsUrlChar(c: char) {
    || IsAlnum(c) || c == '-' || c == '_' || c == '.' || c == '!' || c == '~' || c == '*' || c == '\'' || c == '('
    || c == ')' || c == '%' || c == ':' || c == '@' || c == '&' || c == '=' || c == '+' || c == '$' || c == ','
    || c == '/' || c == '?'
  }

  predicate IsWordChar(c: char) {
    IsAlnum(c) || c == ' '
  }

  predicate Some1(s: string, p: char -> bool) {
    s != "" && All(s, p)
  }

  /** Splits s behind its longest prefix of characters with p, if that is not empty and a space follows. */
  function CutWord(s: string, p: char -> bool): Option<(string, string)> {
    var k := SpanWhile(s, p);
    if k == 0 || k == |s| || s[k] != ' ' then None else Some((s[..k], s[k + 1..]))
  }

  /** The digits of the code in a status line: version, code, words. */
  function MatchStatusLine(s: string): Option<string> {
    match CutWord(s, IsVersionChar)
    case None => None
    case Some((_, t)) =>
      match CutWord(t, IsDigit)
      case None => None
      case Some((code, words)) => if Some1(words, IsWordChar) then Some(code) else None
  }

  /** The method and the URL in a request line: method, URL, version. */
  function MatchRequestLine(s: string): Option<(string, string)> {
    match CutWord(s, IsAlpha)
    case None => None
    case Some((verb, t)) =>
      match CutWord(t, IsUrlChar)
      case None => None
      case Some((url, version)) => if Some1(version, IsVersionChar) then Some((verb, url)) else None
  }

  function Strtoul(digits: string): (n: nat)
    requires All(digits, IsDigit)
    ensures n <= ULONG_MAX
  {
    if DecimalValue(digits) <= ULONG_MAX then DecimalValue(digits) else ULONG_MAX
  }

  lemma CodeIsDigits(s: string)
    ensures MatchStatusLine(s).Some? ==> All(MatchStatusLine(s).value, IsDigit)
  {
  }

  /** What the first line puts into the packet, or None when it is malformed. */
  function ReadFirstLine(line: string, packet: Packet, stray: int): Option<Packet> {
    var s := CString(line);
    CodeIsDigits(s);
    match MatchStatusLine(s)
    case Some(code) => Some(packet.(statusCode := Strtoul(code) % UINT_RANGE))
    case None =>
      match MatchRequestLine(s)
      case None => None
      case Some((verb, url)) =>
        match FromString(url, stray)
        case None => None
        case Some(uri) => Some(packet.(verb := verb, url := uri))
  }

  // ---------------------------------------------------------------------------
  // Fields
  // ---------------------------------------------------------------------------

  predicate Contains(s: string, sub: string) {
    sub <= s || (s != "" && Contains(s[1..], sub))
  }

  predicate IsSpace(c: char) {
    c == ' '
  }

  /** The digits behind a colon and any number of spaces. */
  function DigitsAfterColon(s: string): (d: string)
    ensures All(d, IsDigit)
  {
    if s == "" || s[0] != ':' then ""
    else
      var t := s[1..][SpanWhile(s[1..], IsSpace)..];
      t[..SpanWhile(t, IsDigit)]
  }

  /** The digits behind the last colon, from position i on, that has some. */
  function LengthDigits(s: string, i: nat): (d: Option<string>)
    requires i <= |s|
    ensures d.Some? ==> Some1(d.value, IsDigit)
    decreases |s| - i
  {
    if i == |s| then None
    else
      var later := LengthDigits(s, i + 1);
      if later.Some? then later
      else if DigitsAfterColon(s[i..]) != "" then Some(DigitsAfterColon(s[i..]))
      else None
  }

  function MatchLength(s: string): (d: Option<string>)
    ensures d.Some? ==> Some1(d.value, IsDigit)
  {
    if '\n' in s || '\r' in s then None else LengthDigits(s, 0)
  }

  const CONTENT_LENGTH := "Content-Length"

  /** What a field puts into the packet, or None when it is a malformed length. */
  function ReadField(field: string, packet: Packet): Option<Packet> {
    if !Contains(field, CONTENT_LENGTH) then Some(packet)
    else
      match MatchLength(CString(field))
      case None => None
      case Some(digits) => Some(packet.(contentLength := Strtoul(digits)))
  }

  // ---------------------------------------------------------------------------
  // The whole message
  // ---------------------------------------------------------------------------

  /** First line and fields: malformed, still incomplete, or whole with what stands behind the blank line. */
  datatype Head = BadHead | PartHead(state: ParserState, packet: Packet, rest: string) | WholeHead(packet: Packet, tail: string)

  function ParseFields(s: string, packet: Packet): Head
    decreases |s|
  {
    match CutLine(s)
    case NeedMore => PartHead(Fields, packet, s)
    case Malformed => BadHead
    case Line(field, tail) =>
      if field == "" then WholeHead(packet, tail)
      else
        match ReadField(field, packet)
        case None => BadHead
        case Some(p) => ParseFields(tail, p)
  }

  function ParseHead(s: string, packet: Packet, stray: int): Head {
    match CutLine(s)
    case NeedMore => PartHead(FirstLine, packet, s)
    case Malformed => BadHead
    case Line(line, tail) =>
      match ReadFirstLine(line, packet, stray)
      case None => BadHead
      case Some(p) => ParseFields(tail, p)
  }

  /** A body is there once exactly its bytes are. */
  function ParseBody(s: string, packet: Packet): Outcome {
    if packet.contentLength == 0 then Parsed(Complete, packet, s)
    else if |s| == packet.contentLength then Parsed(Complete, packet.(body := s), "")
    else Parsed(Body, packet, s)
  }

  function Conclude(head: Head): Outcome {
    match head
    case BadHead => Rejected
    case PartHead(state, packet, rest) => Parsed(state, packet, rest)
    case WholeHead(packet, tail) => ParseBody(tail, packet)
  }

  /** What a message is, read in one piece. */
  function ParseMessage(s: string, stray: int): Outcome {
    Conclude(ParseHead(s, EMPTY_PACKET, stray))
  }

  /** More bytes behind the blank line than the content length says. */
  predicate Overlong(s: string, stray: int) {
    var head := ParseHead(s, EMPTY_PACKET, stray);
    head.WholeHead? && 0 < head.packet.contentLength < |head.tail|
  }

  // ---------------------------------------------------------------------------
  // The recognisers accept the languages of the patterns
  // ---------------------------------------------------------------------------

  lemma WordIsCut(a: string, b: string, p: char -> bool)
    requires Some1(a, p) && !p(' ')
    ensures CutWord(a + " " + b, p) == Some((a, b))
  {
    var s := a + " " + b;
    assert forall i :: 0 <= i < |a| ==> s[i] == a[i];
    assert s[|a|] == ' ';
    SpanWhileAt(s, p, |a|);
    assert s[..|a|] == a && s[|a| + 1..] == b;
  }

  lemma CutIsWord(s: string, p: char -> bool)
    ensures CutWord(s, p).Some? ==> var (a, b) := CutWord(s, p).value; Some1(a, p) && s == a + " " + b
  {
  }

  ghost predicate IsStatusLine(s: string, version: string, code: string, words: string) {
    && s == version + " " + (code + " " + words)
    && Some1(version, IsVersionChar) && Some1(code, IsDigit) && Some1(words, IsWordChar)
  }

  /** A status line is found exactly when the text has the form of one, and with the code it has there. */
  lemma StatusLinePattern(s: string, code: string)
    ensures MatchStatusLine(s) == Some(code) <==> exists version, words :: IsStatusLine(s, version, code, words)
  {
    CutIsWord(s, IsVersionChar);
    if CutWord(s, IsVersionChar).Some? {
      CutIsWord(CutWord(s, IsVersionChar).value.1, IsDigit);
    }
    if MatchStatusLine(s) == Some(code) {
      var (version, t) := CutWord(s, IsVersionChar).value;
      assert IsStatusLine(s, version, code, CutWord(t, IsDigit).value.1);
    }
    forall version, words | IsStatusLine(s, version, code, words) ensures MatchStatusLine(s) == Some(code) {
      WordIsCut(version, code + " " + words, IsVersionChar);
      WordIsCut(code, words, IsDigit);
    }
  }

  ghost predicate IsRequestLine(s: string, verb: string, url: string, version: string) {
    && s == verb + " " + (url + " " + version)
    && Some1(verb, IsAlpha) && Some1(url, IsUrlChar) && Some1(version, IsVersionChar)
  }

  lemma RequestLinePattern(s: string, verb: string, url: string)
    ensures MatchRequestLine(s) == Some((verb, url)) <==> exists version :: IsRequestLine(s, verb, url, version)
  {
    CutIsWord(s, IsAlpha);
    if CutWord(s, IsAlpha).Some? {
      CutIsWord(CutWord(s, IsAlpha).value.1, IsUrlChar);
    }
    if MatchRequestLine(s) == Some((verb, url)) {
      var (_, t) := CutWord(s, IsAlpha).value;
      assert IsRequestLine(s, verb, url, CutWord(t, IsUrlChar).value.1);
    }
    forall version | IsRequestLine(s, verb, url, version) ensures MatchRequestLine(s) == Some((verb, url)) {
      WordIsCut(verb, url + " " + version, IsAlpha);
      WordIsCut(url, version, IsUrlChar);
    }
  }

  predicate NoLength(s: string, i: nat) {
    forall j :: i <= j < |s| ==> DigitsAfterColon(s[j..]) == ""
  }

  ghost predicate IsLengthAt(s: string, i: nat, digits: string) {
    i < |s| && digits != "" && DigitsAfterColon(s[i..]) == digits && NoLength(s, i + 1)
  }

  lemma {:induction false} LengthIsLast(s: string, i: nat)
    requires i <= |s|
    ensures LengthDigits(s, i) == None ==> NoLength(s, i)
    ensures LengthDigits(s, i).Some? ==> exists k: nat :: i <= k && IsLengthAt(s, k, LengthDigits(s, i).value)
    decreases |s| - i
  {
    if i < |s| {
      LengthIsLast(s, i + 1);
      if LengthDigits(s, i + 1).Some? {
        var k: nat :| i + 1 <= k && IsLengthAt(s, k, LengthDigits(s, i + 1).value);
        assert i <= k;
      } else if LengthDigits(s, i).Some? {
        assert IsLengthAt(s, i, LengthDigits(s, i).value);
      }
    }
  }

  lemma LastIsUnique(s: string, i: nat, k: nat, a: string, b: string)
    requires IsLengthAt(s, i, a) && IsLengthAt(s, k, b)
    ensures a == b
  {
  }

  /** The length of a field is what stands behind the last colon that has digits behind it. */
  lemma LengthPattern(s: string, digits: string)
    ensures LengthDigits(s, 0) == Some(digits) <==> exists k: nat :: IsLengthAt(s, k, digits)
  {
    LengthIsLast(s, 0);
    if LengthDigits(s, 0).Some? {
      var i: nat :| IsLengthAt(s, i, LengthDigits(s, 0).value);
      forall k: nat | IsLengthAt(s, k, digits) ensures digits == LengthDigits(s, 0).value {
        LastIsUnique(s, i, k, LengthDigits(s, 0).value, digits);
      }
    }
  }
}
