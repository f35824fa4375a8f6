/** Which texts are messages: the grammar that the parser accepts, and exactly what it rejects. */
module HttpGrammar {
  import opened Sequences
  import opened TaskQueues
  import opened Text
  import opened Uri
  import opened HttpMessages

  // ---------------------------------------------------------------------------
  // Lines
  // ---------------------------------------------------------------------------

  /** A carriage return that no line feed follows comes first. */
  ghost predicate BreaksOff(s: string) {
    exists k :: 0 <= k < |s| - 1 && '\r' !in s[..k] && s[k] == '\r' && s[k + 1] != '\n'
  }

  lemma SpanIsFirst(s: string, k: nat)
    requires k < |s| && '\r' !in s[..k] && s[k] == '\r'
    ensures Span(s, "\r") == k
  {
    forall i | 0 <= i < k ensures s[i] !in "\r" {
      assert s[i] == s[..k][i];
    }
    SpanAt(s, "\r", k);
  }

  /** A line ends at the first carriage return and the line feed behind it. */
  lemma LineExactly(s: string, line: string, tail: string)
    ensures CutLine(s) == Line(line, tail) <==> s == line + "\r\n" + tail && '\r' !in line
  {
    if CutLine(s) == Line(line, tail) {
      var k := Span(s, "\r");
      assert s == s[..k] + "\r\n" + s[k + 2..];
    }
    if s == line + "\r\n" + tail && '\r' !in line {
      assert s[..|line|] == line && s[|line|] == '\r' && s[|line| + 1] == '\n' && s[|line| + 2..] == tail;
      SpanIsFirst(s, |line|);
    }
  }

  lemma MalformedExactly(s: string)
    ensures CutLine(s) == Malformed <==> BreaksOff(s)
  {
    var k := Span(s, "\r");
    if CutLine(s) == Malformed {
      assert '\r' !in s[..k] && s[k] == '\r';
    }
    if BreaksOff(s) {
      var j :| 0 <= j < |s| - 1 && '\r' !in s[..j] && s[j] == '\r' && s[j + 1] != '\n';
      SpanIsFirst(s, j);
    }
  }

  // ---------------------------------------------------------------------------
  // What a line says
  // ---------------------------------------------------------------------------

  lemma {:induction false} ContainsExactly(s: string, sub: string)
    ensures Contains(s, sub) <==> exists i :: 0 <= i <= |s| && sub <= s[i..]
  {
    assert s[0..] == s;
    if s != "" {
      ContainsExactly(s[1..], sub);
      forall i | 0 <= i < |s| ensures s[1..][i..] == s[i + 1..] {
      }
      if Contains(s[1..], sub) {
        var i :| 0 <= i <= |s| - 1 && sub <= s[1..][i..];
        assert sub <= s[i + 1..];
      }
      if exists i :: 0 < i <= |s| && sub <= s[i..] {
        var i :| 0 < i <= |s| && sub <= s[i..];
        assert s[1..][i - 1..] == s[i..];
      }
    }
  }

  /** The number a length is read as: too large a one becomes the largest there is. */
  function Capped(digits: string): nat
    requires All(digits, IsDigit)
  {
    if DecimalValue(digits) <= 0xffff_ffff_ffff_ffff then DecimalValue(digits) else 0xffff_ffff_ffff_ffff
  }

  predicate SpeaksOfLength(field: string) {
    exists i :: 0 <= i <= |field| && "Content-Length" <= field[i..]
  }

  /** The field, up to a NUL, gives the length n: the last digits that stand behind a colon. */
  ghost predicate GivesLength(field: string, n: nat) {
    var s := CString(field);
    && '\n' !in s && '\r' !in s
    && exists k: nat, digits :: IsLengthAt(s, k, digits) && All(digits, IsDigit) && n == Capped(digits)
  }

  /** What a field does to the length known so far. */
  ghost predicate FieldSays(field: string, before: nat, after: nat) {
    if SpeaksOfLength(field) then GivesLength(field, after) else after == before
  }

  lemma LengthGiven(field: string, n: nat)
    ensures GivesLength(field, n) <==> MatchLength(CString(field)).Some? && n == Strtoul(MatchLength(CString(field)).value)
  {
    var s := CString(field);
    if GivesLength(field, n) {
      var k: nat, digits :| IsLengthAt(s, k, digits) && All(digits, IsDigit) && n == Capped(digits);
      LengthPattern(s, digits);
    }
    if MatchLength(s).Some? {
      LengthPattern(s, MatchLength(s).value);
      var k: nat :| IsLengthAt(s, k, MatchLength(s).value);
      assert All(MatchLength(s).value, IsDigit) && Strtoul(MatchLength(s).value) == Capped(MatchLength(s).value);
    }
  }

  lemma FieldIsRead(field: string, packet: Packet, n: nat)
    ensures ReadField(field, packet) == Some(packet.(contentLength := n)) <==> FieldSays(field, packet.contentLength, n)
    ensures ReadField(field, packet).Some? ==>
              ReadField(field, packet).value == packet.(contentLength := ReadField(field, packet).value.contentLength)
  {
    ContainsExactly(field, "Content-Length");
    LengthGiven(field, n);
  }

  /** The packet that the first line makes: the code of a status line, or else method and URL of a request line. */
  ghost predicate FirstLineSays(line: string, packet: Packet, stray: int) {
    var s := CString(line);
    if exists version, code, words :: IsStatusLine(s, version, code, words) then
      exists version, code, words :: IsStatusLine(s, version, code, words)
                                     && packet == EMPTY_PACKET.(statusCode := Capped(code) % 0x1_0000_0000)
    else
      exists verb, url, version :: IsRequestLine(s, verb, url, version) && FromString(url, stray).Some?
                                   && packet == EMPTY_PACKET.(verb := verb, url := FromString(url, stray).value)
  }

  lemma FirstLineIsRead(line: string, packet: Packet, stray: int)
    ensures ReadFirstLine(line, EMPTY_PACKET, stray) == Some(packet) <==> FirstLineSays(line, packet, stray)
  {
    var s := CString(line);
    forall version, code, words | IsStatusLine(s, version, code, words) ensures MatchStatusLine(s) == Some(code) {
      StatusLinePattern(s, code);
    }
    forall verb, url, version | IsRequestLine(s, verb, url, version) ensures MatchRequestLine(s) == Some((verb, url)) {
      RequestLinePattern(s, verb, url);
    }
    if MatchStatusLine(s).Some? {
      StatusLinePattern(s, MatchStatusLine(s).value);
    } else if MatchRequestLine(s).Some? {
      RequestLinePattern(s, MatchRequestLine(s).value.0, MatchRequestLine(s).value.1);
    }
  }

  // ---------------------------------------------------------------------------
  // The fields
  // ---------------------------------------------------------------------------

  function FieldLines(fields: seq<string>): string {
    if fields == [] then "" else fields[0] + "\r\n" + FieldLines(fields[1..])
  }

  predicate AreFields(fields: seq<string>) {
    forall i :: 0 <= i < |fields| ==> fields[i] != "" && '\r' !in fields[i]
  }

  /** What the fields, one after the other, make of the length. */
  ghost predicate FieldsSay(fields: seq<string>, before: nat, after: nat)
    decreases |fields|
  {
    if fields == [] then after == before
    else exists n: nat :: FieldSays(fields[0], before, n) && FieldsSay(fields[1..], n, after)
  }

  /** A line that speaks of a length and gives none. */
  ghost predicate BadField(s: string) {
    exists field, tail :: && s == field + "\r\n" + tail && field != "" && '\r' !in field
                          && SpeaksOfLength(field) && forall n: nat :: !GivesLength(field, n)
  }

  lemma OneFieldIsRead(field: string, rest: string, packet: Packet, n: nat)
    requires field != "" && '\r' !in field && FieldSays(field, packet.contentLength, n)
    ensures ParseFields(field + "\r\n" + rest, packet) == ParseFields(rest, packet.(contentLength := n))
  {
    LineExactly(field + "\r\n" + rest, field, rest);
    FieldIsRead(field, packet, n);
  }

  lemma Regroup(field: string, more: string, rest: string)
    ensures field + "\r\n" + more + rest == field + "\r\n" + (more + rest)
  {
  }

  lemma {:induction false} FieldsAreRead(fields: seq<string>, rest: string, packet: Packet, n: nat)
    requires AreFields(fields) && FieldsSay(fields, packet.contentLength, n)
    ensures ParseFields(FieldLines(fields) + rest, packet) == ParseFields(rest, packet.(contentLength := n))
  {
    if fields == [] {
      assert "" + rest == rest;
    } else {
      var m: nat :| FieldSays(fields[0], packet.contentLength, m) && FieldsSay(fields[1..], m, n);
      var more := FieldLines(fields[1..]);
      Regroup(fields[0], more, rest);
      OneFieldIsRead(fields[0], more + rest, packet, m);
      FieldsAreRead(fields[1..], rest, packet.(contentLength := m), n);
    }
  }

  lemma FieldIsBad(field: string, packet: Packet)
    ensures ReadField(field, packet) == None <==> SpeaksOfLength(field) && forall n: nat :: !GivesLength(field, n)
  {
    ContainsExactly(field, "Content-Length");
    forall n: nat ensures GivesLength(field, n) <==>
                            MatchLength(CString(field)).Some? && n == Strtoul(MatchLength(CString(field)).value) {
      LengthGiven(field, n);
    }
    if MatchLength(CString(field)).Some? {
      assert GivesLength(field, Strtoul(MatchLength(CString(field)).value));
    }
  }

  lemma OneMoreField(field: string, fields: seq<string>, before: nat, m: nat, n: nat)
    requires field != "" && '\r' !in field && AreFields(fields) && FieldSays(field, before, m) && FieldsSay(fields, m, n)
    ensures AreFields([field] + fields) && FieldsSay([field] + fields, before, n)
    ensures FieldLines([field] + fields) == field + "\r\n" + FieldLines(fields)
  {
    assert ([field] + fields)[1..] == fields;
  }

  /** Reading the fields cannot go on here. */
  predicate Stops(rest: string, packet: Packet) {
    CutLine(rest).Line? && CutLine(rest).line != "" ==> ReadField(CutLine(rest).line, packet) == None
  }

  /** The fields that were read before reading stopped. */
  lemma {:induction false} FieldsFound(s: string, packet: Packet) returns (fields: seq<string>, n: nat, rest: string)
    ensures s == FieldLines(fields) + rest && AreFields(fields) && FieldsSay(fields, packet.contentLength, n)
    ensures Stops(rest, packet.(contentLength := n))
    decreases |s|
  {
    if Stops(s, packet) {
      fields, n, rest := [], packet.contentLength, s;
      assert "" + rest == rest;
    } else {
      var field, tail := CutLine(s).line, CutLine(s).tail;
      var next := ReadField(field, packet).value;
      FieldIsRead(field, packet, next.contentLength);
      LineExactly(s, field, tail);
      fields, n, rest := FieldsFound(tail, next);
      OneMoreField(field, fields, packet.contentLength, next.contentLength, n);
      Regroup(field, FieldLines(fields), rest);
      fields := [field] + fields;
    }
  }

  lemma BlankLineExactly(rest: string, packet: Packet, tail: string)
    requires Stops(rest, packet)
    ensures ParseFields(rest, packet).WholeHead? && ParseFields(rest, packet).tail == tail <==> rest == "\r\n" + tail
    ensures ParseFields(rest, packet).WholeHead? ==> ParseFields(rest, packet).packet == packet
  {
    LineExactly(rest, "", tail);
    assert "" + "\r\n" + tail == "\r\n" + tail;
  }

  /** What cannot be read on is rejected. */
  lemma BadFieldsAreRejected(rest: string, packet: Packet)
    requires BreaksOff(rest) || BadField(rest)
    ensures ParseFields(rest, packet) == BadHead
  {
    MalformedExactly(rest);
    if BadField(rest) {
      var field, tail :| && rest == field + "\r\n" + tail && field != "" && '\r' !in field
                         && SpeaksOfLength(field) && forall n: nat :: !GivesLength(field, n);
      LineExactly(rest, field, tail);
      FieldIsBad(field, packet);
    }
  }

  lemma RejectedFieldsAreBad(rest: string, packet: Packet)
    requires Stops(rest, packet) && ParseFields(rest, packet) == BadHead
    ensures BreaksOff(rest) || BadField(rest)
  {
    MalformedExactly(rest);
    if CutLine(rest).Line? {
      LineExactly(rest, CutLine(rest).line, CutLine(rest).tail);
      FieldIsBad(CutLine(rest).line, packet);
    }
  }

  // ---------------------------------------------------------------------------
  // The whole
  // ---------------------------------------------------------------------------

  /** A first line that says what is in packet, fields that make n the length, and the rest. */
  ghost predicate IsHead(s: string, line: string, fields: seq<string>, rest: string, packet: Packet, n: nat, stray: int) {
    && s == line + "\r\n" + (FieldLines(fields) + rest)
    && '\r' !in line && AreFields(fields)
    && FirstLineSays(line, packet, stray) && FieldsSay(fields, 0, n)
  }

  lemma HeadIsRead(s: string, line: string, fields: seq<string>, rest: string, packet: Packet, n: nat, stray: int)
    requires IsHead(s, line, fields, rest, packet, n, stray)
    ensures ParseHead(s, EMPTY_PACKET, stray) == ParseFields(rest, packet.(contentLength := n))
  {
    LineExactly(s, line, FieldLines(fields) + rest);
    FirstLineIsRead(line, packet, stray);
    FieldsAreRead(fields, rest, packet, n);
  }

  /** The head of a message, as far as it could be read. */
  lemma HeadFound(s: string, stray: int)
    returns (line: string, fields: seq<string>, rest: string, packet: Packet, n: nat)
    requires CutLine(s).Line? && ReadFirstLine(CutLine(s).line, EMPTY_PACKET, stray).Some?
    ensures IsHead(s, line, fields, rest, packet, n, stray)
    ensures Stops(rest, packet.(contentLength := n))
  {
    line := CutLine(s).line;
    packet := ReadFirstLine(line, EMPTY_PACKET, stray).value;
    LineExactly(s, line, CutLine(s).tail);
    FirstLineIsRead(line, packet, stray);
    fields, n, rest := FieldsFound(CutLine(s).tail, packet);
  }

  /** Exactly which texts are a whole head, and what it says. */
  lemma HeadExactly(s: string, packet: Packet, tail: string, stray: int)
    ensures ParseHead(s, EMPTY_PACKET, stray) == WholeHead(packet, tail) <==>
            exists line, fields, first, n :: && IsHead(s, line, fields, "\r\n" + tail, first, n, stray)
                                             && packet == first.(contentLength := n)
  {
    if ParseHead(s, EMPTY_PACKET, stray) == WholeHead(packet, tail) {
      var line, fields, rest, first, n := HeadFound(s, stray);
      HeadIsRead(s, line, fields, rest, first, n, stray);
      BlankLineExactly(rest, first.(contentLength := n), tail);
      assert IsHead(s, line, fields, "\r\n" + tail, first, n, stray);
    }
    forall line, fields, first, n | IsHead(s, line, fields, "\r\n" + tail, first, n, stray)
      ensures ParseHead(s, EMPTY_PACKET, stray) == WholeHead(first.(contentLength := n), tail)
    {
      HeadIsRead(s, line, fields, "\r\n" + tail, first, n, stray);
      LineExactly("\r\n" + tail, "", tail);
      assert "" + "\r\n" + tail == "\r\n" + tail;
    }
  }

  /** The first line is whole and says nothing. */
  ghost predicate BadFirstLine(s: string, stray: int) {
    exists line, rest :: s == line + "\r\n" + rest && '\r' !in line && forall packet :: !FirstLineSays(line, packet, stray)
  }

  /** Behind a first line and fields that could be read stands something that cannot be. */
  ghost predicate BadFields(s: string, stray: int) {
    exists line, fields, rest, first, n :: IsHead(s, line, fields, rest, first, n, stray) && (BreaksOff(rest) || BadField(rest))
  }

  lemma BadIsRejected(s: string, stray: int)
    requires BreaksOff(s) || BadFirstLine(s, stray) || BadFields(s, stray)
    ensures ParseHead(s, EMPTY_PACKET, stray) == BadHead
  {
    if BreaksOff(s) {
      MalformedExactly(s);
    } else if BadFirstLine(s, stray) {
      var line, rest :| s == line + "\r\n" + rest && '\r' !in line && forall packet :: !FirstLineSays(line, packet, stray);
      LineExactly(s, line, rest);
      if ReadFirstLine(line, EMPTY_PACKET, stray).Some? {
        FirstLineIsRead(line, ReadFirstLine(line, EMPTY_PACKET, stray).value, stray);
      }
    } else {
      var line, fields, rest, first, n :| IsHead(s, line, fields, rest, first, n, stray) && (BreaksOff(rest) || BadField(rest));
      HeadIsRead(s, line, fields, rest, first, n, stray);
      BadFieldsAreRejected(rest, first.(contentLength := n));
    }
  }

  lemma RejectedIsBad(s: string, stray: int)
    requires ParseHead(s, EMPTY_PACKET, stray) == BadHead
    ensures BreaksOff(s) || BadFirstLine(s, stray) || BadFields(s, stray)
  {
    MalformedExactly(s);
    if CutLine(s).Line? {
      var line := CutLine(s).line;
      LineExactly(s, line, CutLine(s).tail);
      if ReadFirstLine(line, EMPTY_PACKET, stray).Some? {
        var l, fields, rest, first, n := HeadFound(s, stray);
        HeadIsRead(s, l, fields, rest, first, n, stray);
        RejectedFieldsAreBad(rest, first.(contentLength := n));
        assert IsHead(s, l, fields, rest, first, n, stray);
      } else {
        forall packet ensures !FirstLineSays(line, packet, stray) {
          FirstLineIsRead(line, packet, stray);
        }
      }
    }
  }

  /**
   * Exactly which texts are rejected: a carriage return without its line feed, a first line that is none, or behind fields
   * that could be read such a carriage return or a content length that is none.
   */
  lemma RejectedExactly(s: string, stray: int)
    ensures ParseMessage(s, stray) == Rejected <==> BreaksOff(s) || BadFirstLine(s, stray) || BadFields(s, stray)
  {
    if BreaksOff(s) || BadFirstLine(s, stray) || BadFields(s, stray) {
      BadIsRejected(s, stray);
    }
    if ParseMessage(s, stray) == Rejected {
      RejectedIsBad(s, stray);
    }
  }

  /** First line, fields, a blank line, and a body of exactly the length the fields give. */
  ghost predicate IsMessage(s: string, packet: Packet, stray: int) {
    exists line, fields, first, n ::
      && IsHead(s, line, fields, "\r\n" + packet.body, first, n, stray)
      && |packet.body| == n && packet == first.(contentLength := n, body := packet.body)
  }

  lemma FirstHasNoBody(line: string, first: Packet, stray: int)
    requires FirstLineSays(line, first, stray)
    ensures first.body == ""
  {
  }

  lemma BodyExactly(head: Packet, tail: string, packet: Packet)
    requires head.body == ""
    ensures ParseBody(tail, head) == Parsed(Complete, packet, "") <==> |tail| == head.contentLength && packet == head.(body := tail)
  {
  }

  lemma CompleteIsMessage(s: string, packet: Packet, stray: int)
    requires ParseMessage(s, stray) == Parsed(Complete, packet, "")
    ensures IsMessage(s, packet, stray)
  {
    var head := ParseHead(s, EMPTY_PACKET, stray);
    if head.PartHead? {
      PartIsNotComplete(s, stray);
    } else {
      HeadExactly(s, head.packet, head.tail, stray);
      var line, fields, first, n :| && IsHead(s, line, fields, "\r\n" + head.tail, first, n, stray)
                                    && head.packet == first.(contentLength := n);
      FirstHasNoBody(line, first, stray);
      BodyExactly(head.packet, head.tail, packet);
      assert IsHead(s, line, fields, "\r\n" + packet.body, first, n, stray);
    }
  }

  lemma {:induction false} PartFieldsState(s: string, packet: Packet)
    ensures ParseFields(s, packet).PartHead? ==> ParseFields(s, packet).state == Fields
    decreases |s|
  {
    var cut := CutLine(s);
    if cut.Line? && cut.line != "" && ReadField(cut.line, packet).Some? {
      PartFieldsState(cut.tail, ReadField(cut.line, packet).value);
    }
  }

  lemma PartIsNotComplete(s: string, stray: int)
    ensures ParseHead(s, EMPTY_PACKET, stray).PartHead? ==> ParseHead(s, EMPTY_PACKET, stray).state in {FirstLine, Fields}
  {
    if CutLine(s).Line? && ReadFirstLine(CutLine(s).line, EMPTY_PACKET, stray).Some? {
      PartFieldsState(CutLine(s).tail, ReadFirstLine(CutLine(s).line, EMPTY_PACKET, stray).value);
    }
  }

  lemma MessageIsComplete(s: string, packet: Packet, stray: int)
    requires IsMessage(s, packet, stray)
    ensures ParseMessage(s, stray) == Parsed(Complete, packet, "")
  {
    var line, fields, first, n :|
      && IsHead(s, line, fields, "\r\n" + packet.body, first, n, stray)
      && |packet.body| == n && packet == first.(contentLength := n, body := packet.body);
    FirstHasNoBody(line, first, stray);
    HeadExactly(s, first.(contentLength := n), packet.body, stray);
    BodyExactly(first.(contentLength := n), packet.body, packet);
  }

  /** Exactly which texts are a message that is read to its end, and what is read. */
  lemma MessageExactly(s: string, packet: Packet, stray: int)
    ensures ParseMessage(s, stray) == Parsed(Complete, packet, "") <==> IsMessage(s, packet, stray)
  {
    if ParseMessage(s, stray) == Parsed(Complete, packet, "") {
      CompleteIsMessage(s, packet, stray);
    }
    if IsMessage(s, packet, stray) {
      MessageIsComplete(s, packet, stray);
    }
  }
}
