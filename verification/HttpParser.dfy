/** The incremental HTTP parser: fed in any pieces, it reads what the whole message is. */
module HttpParsers {
  import opened TaskQueues
  import opened Text
  import opened Uri
  import opened HttpMessages

  const CAPACITY := 2048

  // ---------------------------------------------------------------------------
  // Reading on
  // ---------------------------------------------------------------------------

  /** How far the parser gets from a state with this input. */
  function Run(state: ParserState, packet: Packet, rest: string, stray: int): Outcome {
    match state
    case FirstLine => Conclude(ParseHead(rest, packet, stray))
    case Fields => Conclude(ParseFields(rest, packet))
    case Body => ParseBody(rest, packet)
    case Complete => Parsed(Complete, packet, rest)
  }

  /** More input after an outcome. */
  function Feed(o: Outcome, data: string, stray: int): Outcome {
    match o
    case Rejected => Rejected
    case Parsed(state, packet, rest) => Run(state, packet, rest + data, stray)
  }

  const START := Parsed(FirstLine, EMPTY_PACKET, "")

  function FeedAll(chunks: seq<string>, stray: int): Outcome {
    if chunks == [] then START else Feed(FeedAll(chunks[..|chunks| - 1], stray), chunks[|chunks| - 1], stray)
  }

  function Flatten(chunks: seq<string>): string {
    if chunks == [] then "" else Flatten(chunks[..|chunks| - 1]) + chunks[|chunks| - 1]
  }

  // ---------------------------------------------------------------------------
  // The parser object
  // ---------------------------------------------------------------------------

  class HttpParser {
    var incomingDataBuf: string
    var parseFrom: nat
    var state: ParserState
    var packet: Packet
    /** What an int holds before it is set. */
    const stray: int

    ghost predicate InBounds()
      reads this
    {
      parseFrom <= |incomingDataBuf| <= CAPACITY
    }

    function Rest(): string
      reads this
      requires InBounds()
    {
      incomingDataBuf[parseFrom..]
    }

    /** How far the parser gets with what it has. */
    ghost function Outlook(): Outcome
      reads this
      requires InBounds()
    {
      Run(state, packet, Rest(), stray)
    }

    /** Between calls the parser is as far as it gets; it has thrown if that is nowhere. */
    ghost predicate Valid()
      reads this
    {
      InBounds() && (state == FirstLine ==> parseFrom == 0)
      && (Outlook() == Rejected || Outlook() == Parsed(state, packet, Rest()))
    }

    constructor (stray: int)
      ensures Valid() && incomingDataBuf == "" && Outlook() == START && this.stray == stray
    {
      incomingDataBuf, parseFrom, state, packet := "", 0, FirstLine, EMPTY_PACKET;
      this.stray := stray;
    }

    method Reset()
      modifies this
      ensures Valid() && incomingDataBuf == "" && Outlook() == START
    {
      incomingDataBuf, parseFrom, state, packet := "", 0, FirstLine, EMPTY_PACKET;
    }

    predicate Done()
      reads this
    {
      state == Complete
    }

    /** Takes a piece of input. False stands for an exception, because of the size or of the contents. */
    method OnData(data: string) returns (ok: bool)
      requires Valid()
      modifies this
      ensures Valid()
      ensures |old(incomingDataBuf)| + |data| > CAPACITY ==>
                !ok && incomingDataBuf == old(incomingDataBuf) && Outlook() == old(Outlook())
      ensures |old(incomingDataBuf)| + |data| <= CAPACITY ==>
                && incomingDataBuf == old(incomingDataBuf) + data
                && Outlook() == Feed(old(Outlook()), data, stray) && ok == Outlook().Parsed?
    {
      if |incomingDataBuf| + |data| > CAPACITY {
        return false;
      }
      ghost var before := Outlook();
      RejectedStays(state, packet, Rest(), data, stray);
      assert (incomingDataBuf + data)[parseFrom..] == incomingDataBuf[parseFrom..] + data;
      incomingDataBuf := incomingDataBuf + data;
      var more := true;
      ok := true;
      while more
        invariant InBounds() && (state == FirstLine ==> parseFrom == 0)
        invariant incomingDataBuf == old(incomingDataBuf) + data
        invariant Outlook() == Feed(before, data, stray)
        invariant !ok ==> !more && Outlook() == Rejected
        invariant ok && !more ==> Outlook() == Parsed(state, packet, Rest())
        decreases Rank(state), more
      {
        ok, more := ParseBuf();
      }
    }

    /** One state of the parser; more tells whether the next one can go on. */
    method ParseBuf() returns (ok: bool, more: bool)
      requires InBounds() && (state == FirstLine ==> parseFrom == 0)
      modifies this
      ensures InBounds() && (state == FirstLine ==> parseFrom == 0) && incomingDataBuf == old(incomingDataBuf)
      ensures Outlook() == old(Outlook())
      ensures !ok ==> !more && Outlook() == Rejected
      ensures ok && !more ==> Outlook() == Parsed(state, packet, Rest())
      ensures Rank(state) <= Rank(old(state)) && (more ==> Rank(state) < Rank(old(state)))
    {
      var oldState := state;
      ok := true;
      match state {
      case FirstLine =>
        ok := ParseFirstLine();
      case Fields =>
        var again := true;
        while again && ok
          invariant InBounds() && incomingDataBuf == old(incomingDataBuf) && state in {Fields, Body}
          invariant Outlook() == old(Outlook())
          invariant !ok ==> Outlook() == Rejected
          invariant ok && again ==> state == Fields
          invariant ok && !again && state == Fields ==> Outlook() == Parsed(state, packet, Rest())
          decreases |incomingDataBuf| - parseFrom, again
        {
          ok, again := ParseNextField();
        }
      case Body =>
        if packet.contentLength == 0 {
          state := Complete;
        } else if |incomingDataBuf| - parseFrom == packet.contentLength {
          packet := packet.(body := incomingDataBuf[parseFrom..]);
          state := Complete;
          parseFrom := |incomingDataBuf|;
        }
      case Complete =>
      }
      more := ok && oldState != state;
    }

    method StoreFirstLine(firstLine: string) returns (ok: bool)
      modifies this`packet
      ensures ok == ReadFirstLine(firstLine, old(packet), stray).Some?
      ensures ok ==> packet == ReadFirstLine(firstLine, old(packet), stray).value
      ensures !ok ==> ReadFirstLine(firstLine, packet, stray).None?
    {
      var s := CString(firstLine);
      var status := MatchStatusLine(s);
      CodeIsDigits(s);
      if status.Some? {
        packet := packet.(statusCode := Strtoul(status.value) % UINT_RANGE);
      } else {
        var request := MatchRequestLine(s);
        if request.None? {
          return false;
        }
        packet := packet.(verb := request.value.0);
        var url := FromString(request.value.1, stray);
        if url.None? {
          return false;
        }
        packet := packet.(url := url.value);
      }
      ok := true;
    }

    method ParseFirstLine() returns (ok: bool)
      requires InBounds() && state == FirstLine && parseFrom == 0
      modifies this
      ensures InBounds() && incomingDataBuf == old(incomingDataBuf)
      ensures (state == FirstLine && parseFrom == 0) || state == Fields
      ensures Outlook() == old(Outlook())
      ensures !ok ==> Outlook() == Rejected
      ensures ok && state == FirstLine ==> Outlook() == Parsed(state, packet, Rest())
    {
      var cut := FindCRLF();
      match cut
      case NeedMore => ok := true;
      case Malformed => ok := false;
      case Line(firstLine, tail) =>
        ok := StoreFirstLine(firstLine);
        if !ok {
          return false;
        }
        state := Fields;
        parseFrom := |firstLine| + 2;
    }

    method ParseNextField() returns (ok: bool, more: bool)
      requires InBounds() && state == Fields
      modifies this
      ensures InBounds() && incomingDataBuf == old(incomingDataBuf) && state in {Fields, Body}
      ensures Outlook() == old(Outlook())
      ensures !ok ==> Outlook() == Rejected
      ensures more ==> ok && state == Fields && parseFrom > old(parseFrom)
      ensures parseFrom >= old(parseFrom)
      ensures ok && !more && state == Fields ==> Outlook() == Parsed(state, packet, Rest())
    {
      var cut := FindCRLF();
      match cut
      case NeedMore => return true, false;
      case Malformed => return false, false;
      case Line(field, tail) =>
        if field == "" {
          state := Body;
          parseFrom := parseFrom + 2;
          return true, false;
        }
        if Contains(field, CONTENT_LENGTH) {
          var digits := MatchLength(CString(field));
          if digits.None? {
            return false, false;
          }
          packet := packet.(contentLength := Strtoul(digits.value));
        }
        parseFrom := parseFrom + |field| + 2;
        return true, true;
    }

    /** Finds the next line, by its carriage return. */
    method FindCRLF() returns (cut: Cut)
      requires InBounds()
      ensures cut == CutLine(Rest())
      ensures cut.Line? ==> && parseFrom + |cut.line| + 2 <= |incomingDataBuf|
                            && cut.tail == incomingDataBuf[parseFrom + |cut.line| + 2..]
    {
      var cr := parseFrom;
      while cr < |incomingDataBuf| && incomingDataBuf[cr] != '\r'
        invariant parseFrom <= cr <= |incomingDataBuf|
        invariant forall i :: parseFrom <= i < cr ==> incomingDataBuf[i] != '\r'
      {
        cr := cr + 1;
      }
      SpanAt(Rest(), "\r", cr - parseFrom);
      if cr == |incomingDataBuf| || cr + 1 == |incomingDataBuf| {
        return NeedMore;
      }
      assert Rest()[cr + 1 - parseFrom] == incomingDataBuf[cr + 1];
      if incomingDataBuf[cr + 1] != '\n' {
        return Malformed;
      }
      Slice(incomingDataBuf, parseFrom, cr);
      Slice(incomingDataBuf, parseFrom, cr + 2);
      return Line(incomingDataBuf[parseFrom..cr], incomingDataBuf[cr + 2..]);
    }
  }

  function Rank(state: ParserState): nat {
    match state
    case FirstLine => 3
    case Fields => 2
    case Body => 1
    case Complete => 0
  }

  // ---------------------------------------------------------------------------
  // Chunk independence
  // ---------------------------------------------------------------------------

  /** A line that was found stays where it is when more input comes. */
  lemma CutStays(a: string, b: string)
    ensures CutLine(a) == Malformed ==> CutLine(a + b) == Malformed
    ensures CutLine(a).Line? ==> CutLine(a + b) == Line(CutLine(a).line, CutLine(a).tail + b)
  {
    var k := Span(a, "\r");
    if k + 1 < |a| {
      assert forall i :: 0 <= i < |a| ==> (a + b)[i] == a[i];
      SpanAt(a + b, "\r", k);
      assert (a + b)[..k] == a[..k] && (a + b)[k + 2..] == a[k + 2..] + b;
    }
  }

  /** A head when more input comes: a whole one only gets a longer tail. */
  function Grow(head: Head, b: string, stray: int): Head {
    match head
    case BadHead => BadHead
    case PartHead(state, packet, rest) =>
      if state == FirstLine then ParseHead(rest + b, packet, stray) else ParseFields(rest + b, packet)
    case WholeHead(packet, tail) => WholeHead(packet, tail + b)
  }

  lemma {:induction false} FieldsGrow(a: string, b: string, packet: Packet, stray: int)
    ensures ParseFields(a + b, packet) == Grow(ParseFields(a, packet), b, stray)
    ensures ParseFields(a, packet).PartHead? ==> ParseFields(a, packet).state == Fields
    decreases |a|
  {
    CutStays(a, b);
    match CutLine(a)
    case NeedMore =>
    case Malformed =>
    case Line(field, tail) =>
      if field != "" {
        var r := ReadField(field, packet);
        if r.Some? {
          FieldsGrow(tail, b, r.value, stray);
        }
      }
  }

  lemma HeadGrows(a: string, b: string, packet: Packet, stray: int)
    ensures ParseHead(a + b, packet, stray) == Grow(ParseHead(a, packet, stray), b, stray)
    ensures ParseHead(a, packet, stray).PartHead? ==> ParseHead(a, packet, stray).state in {FirstLine, Fields}
  {
    CutStays(a, b);
    match CutLine(a)
    case NeedMore =>
    case Malformed =>
    case Line(line, tail) =>
      var r := ReadFirstLine(line, packet, stray);
      if r.Some? {
        FieldsGrow(tail, b, r.value, stray);
      }
  }

  lemma RejectedStays(state: ParserState, packet: Packet, a: string, b: string, stray: int)
    ensures Run(state, packet, a, stray) == Rejected ==> Run(state, packet, a + b, stray) == Rejected
  {
    if state == FirstLine {
      RejectedHeadStays(packet, a, b, stray);
    } else if state == Fields {
      FieldsGrow(a, b, packet, stray);
    }
  }

  lemma RejectedHeadStays(packet: Packet, a: string, b: string, stray: int)
    ensures Conclude(ParseHead(a, packet, stray)) == Rejected ==> Conclude(ParseHead(a + b, packet, stray)) == Rejected
  {
    HeadGrows(a, b, packet, stray);
    assert Conclude(ParseHead(a, packet, stray)) == Rejected ==> ParseHead(a, packet, stray) == BadHead;
  }

  /** The body was complete, and then more came. */
  predicate FedPastTheEnd(o: Outcome, data: string) {
    o.Parsed? && o.state == Complete && o.packet.contentLength > 0 && data != ""
  }

  lemma BodyGrows(a: string, b: string, packet: Packet, stray: int)
    ensures FedPastTheEnd(ParseBody(a, packet), b) <==> packet.contentLength == |a| > 0 && b != ""
    ensures Feed(ParseBody(a, packet), b, stray) == ParseBody(a + b, packet) <==> !FedPastTheEnd(ParseBody(a, packet), b)
  {
    assert b == "" ==> a + b == a && "" + b == "";
  }

  /** Feeding two pieces is feeding both at once, exactly when the first did not complete a body. */
  lemma TwoChunks(a: string, b: string, stray: int)
    ensures Feed(ParseMessage(a, stray), b, stray) == ParseMessage(a + b, stray)
       <==> !FedPastTheEnd(ParseMessage(a, stray), b)
    ensures FedPastTheEnd(ParseMessage(a, stray), b) ==> Overlong(a + b, stray)
    ensures Overlong(a, stray) ==> Overlong(a + b, stray)
  {
    HeadGrows(a, b, EMPTY_PACKET, stray);
    var head := ParseHead(a, EMPTY_PACKET, stray);
    if head.WholeHead? {
      BodyGrows(head.tail, b, head.packet, stray);
    }
  }

  lemma NothingYet(stray: int)
    ensures ParseMessage("", stray) == START
  {
  }

  /** A message that is not overlong is read the same however it is split. */
  lemma {:induction false} ChunksMakeNoDifference(chunks: seq<string>, stray: int)
    requires !Overlong(Flatten(chunks), stray)
    ensures FeedAll(chunks, stray) == ParseMessage(Flatten(chunks), stray)
  {
    if chunks == [] {
      NothingYet(stray);
    } else {
      var front := chunks[..|chunks| - 1];
      var last := chunks[|chunks| - 1];
      TwoChunks(Flatten(front), last, stray);
      ChunksMakeNoDifference(front, stray);
    }
  }

  /** A line whose end only came with b leaves less than b. */
  lemma LateCut(a: string, b: string)
    requires CutLine(a) == NeedMore && CutLine(a + b).Line?
    ensures |CutLine(a + b).tail| < |b|
  {
    assert forall i :: 0 <= i < |a| ==> (a + b)[i] == a[i];
    assert Span(a, "\r") < |a| ==> a[Span(a, "\r")] == '\r';
  }

  lemma {:induction false} FieldsTail(s: string, packet: Packet)
    requires ParseFields(s, packet).WholeHead?
    ensures CutLine(s).Line? && |ParseFields(s, packet).tail| <= |CutLine(s).tail| < |s|
    decreases |s|
  {
    var cut := CutLine(s);
    if cut.line != "" {
      FieldsTail(cut.tail, ReadField(cut.line, packet).value);
    }
  }

  lemma {:induction false} PartNeedsMore(s: string, packet: Packet)
    requires ParseFields(s, packet).PartHead?
    ensures CutLine(ParseFields(s, packet).rest) == NeedMore
    decreases |s|
  {
    var cut := CutLine(s);
    if cut.Line? {
      PartNeedsMore(cut.tail, ReadField(cut.line, packet).value);
    }
  }

  /** A head that only became whole with b leaves less than b. */
  lemma LateFields(rest: string, b: string, packet: Packet)
    requires CutLine(rest) == NeedMore && ParseFields(rest + b, packet).WholeHead?
    ensures |ParseFields(rest + b, packet).tail| < |b|
  {
    FieldsTail(rest + b, packet);
    LateCut(rest, b);
  }

  lemma LateHead(rest: string, b: string, packet: Packet, stray: int)
    requires CutLine(rest) == NeedMore && ParseHead(rest + b, packet, stray).WholeHead?
    ensures |ParseHead(rest + b, packet, stray).tail| < |b|
  {
    LateCut(rest, b);
    var cut := CutLine(rest + b);
    FieldsTail(cut.tail, ReadFirstLine(cut.line, packet, stray).value);
  }

  lemma HeadNeedsMore(s: string, packet: Packet, stray: int)
    requires ParseHead(s, packet, stray).PartHead?
    ensures CutLine(ParseHead(s, packet, stray).rest) == NeedMore
  {
    var cut := CutLine(s);
    if cut.Line? {
      PartNeedsMore(cut.tail, ReadFirstLine(cut.line, packet, stray).value);
    }
  }

  /** The head does not depend on the end of what follows it. */
  lemma HeadWithoutEnd(a: string, b: string, packet: Packet, stray: int)
    requires ParseHead(a + b, packet, stray).WholeHead? && |b| <= |ParseHead(a + b, packet, stray).tail|
    ensures ParseHead(a, packet, stray).WholeHead?
    ensures ParseHead(a + b, packet, stray) == Grow(ParseHead(a, packet, stray), b, stray)
  {
    HeadGrows(a, b, packet, stray);
    var head := ParseHead(a, packet, stray);
    if head.PartHead? {
      HeadNeedsMore(a, packet, stray);
      if head.state == FirstLine {
        LateHead(head.rest, b, head.packet, stray);
      } else {
        LateFields(head.rest, b, head.packet);
      }
    }
  }

  lemma FlattenTwo(a: string, b: string)
    ensures Flatten([a, b]) == a + b
  {
    var one, two := [a], [a, b];
    assert one[..0] == [] && two[..1] == one;
    assert Flatten(one) == "" + a == a;
  }

  lemma FeedTwo(a: string, b: string, stray: int)
    ensures FeedAll([a, b], stray) == Feed(ParseMessage(a, stray), b, stray)
  {
    assert [a, b][..1] == [a] && [a][..0] == [];
    assert FeedAll([a], stray) == Feed(START, a, stray);
    assert "" + a == a;
  }

  lemma TailFits(s: string, stray: int)
    requires ParseHead(s, EMPTY_PACKET, stray).WholeHead?
    ensures |ParseHead(s, EMPTY_PACKET, stray).tail| <= |s|
  {
    var cut := CutLine(s);
    FieldsTail(cut.tail, ReadFirstLine(cut.line, EMPTY_PACKET, stray).value);
  }

  /** Split right behind its body, an overlong message is complete with the first piece. */
  lemma OverlongPrefix(a: string, b: string, stray: int)
    requires Overlong(a + b, stray)
    requires var head := ParseHead(a + b, EMPTY_PACKET, stray); |b| == |head.tail| - head.packet.contentLength
    ensures ParseMessage(a, stray).Parsed? && ParseMessage(a, stray).state == Complete
  {
    HeadWithoutEnd(a, b, EMPTY_PACKET, stray);
  }

  lemma OverlongInTwo(a: string, b: string, stray: int)
    requires Overlong(a + b, stray)
    requires var head := ParseHead(a + b, EMPTY_PACKET, stray); |b| == |head.tail| - head.packet.contentLength
    ensures FeedAll([a, b], stray).Parsed? && FeedAll([a, b], stray).state == Complete
  {
    OverlongPrefix(a, b, stray);
    FeedTwo(a, b, stray);
    CompleteStays(ParseMessage(a, stray), b, stray);
  }

  lemma OverlongIsStuck(s: string, stray: int)
    requires Overlong(s, stray)
    ensures ParseMessage(s, stray).Parsed? && ParseMessage(s, stray).state == Body
  {
  }

  lemma CompleteStays(o: Outcome, data: string, stray: int)
    requires o.Parsed? && o.state == Complete
    ensures Feed(o, data, stray).Parsed? && Feed(o, data, stray).state == Complete
  {
  }

  lemma CutBehind(s: string, excess: nat) returns (a: string, b: string)
    requires excess <= |s|
    ensures a + b == s && |b| == excess
  {
    a, b := s[..|s| - excess], s[|s| - excess..];
  }

  /** An overlong message is read differently when it is split behind its body: all at once it is never complete. */
  lemma OverlongDepends(s: string, stray: int) returns (chunks: seq<string>)
    requires Overlong(s, stray)
    ensures Flatten(chunks) == s
    ensures FeedAll(chunks, stray).Parsed? && FeedAll(chunks, stray).state == Complete
    ensures ParseMessage(s, stray).Parsed? && ParseMessage(s, stray).state == Body
  {
    TailFits(s, stray);
    var head := ParseHead(s, EMPTY_PACKET, stray);
    var a, b := CutBehind(s, |head.tail| - head.packet.contentLength);
    OverlongInTwo(a, b, stray);
    FlattenTwo(a, b);
    OverlongIsStuck(s, stray);
    chunks := [a, b];
  }

  /** Every way to split a message gives what the whole gives exactly when the message is not overlong. */
  lemma ChunkIndependence(s: string, stray: int)
    ensures (forall chunks :: Flatten(chunks) == s ==> FeedAll(chunks, stray) == ParseMessage(s, stray))
       <==> !Overlong(s, stray)
  {
    if Overlong(s, stray) {
      var chunks := OverlongDepends(s, stray);
    } else {
      forall chunks | Flatten(chunks) == s ensures FeedAll(chunks, stray) == ParseMessage(s, stray) {
        ChunksMakeNoDifference(chunks, stray);
      }
    }
  }

  // ---------------------------------------------------------------------------
  // The capacity
  // ---------------------------------------------------------------------------

  /** What the parser object does with a piece: the buffer must hold it. */
  function FeedBounded(o: Outcome, size: nat, data: string, stray: int): Outcome {
    if size + |data| > CAPACITY then Rejected else Feed(o, data, stray)
  }

  function FeedAllBounded(chunks: seq<string>, stray: int): Outcome {
    if chunks == [] then START
    else
      var front := chunks[..|chunks| - 1];
      FeedBounded(FeedAllBounded(front, stray), |Flatten(front)|, chunks[|chunks| - 1], stray)
  }

  /** Too long a message is rejected however it comes; any other is read as if there were no bound. */
  lemma {:induction false} CapacityIsTheOnlyBound(chunks: seq<string>, stray: int)
    ensures FeedAllBounded(chunks, stray) == if |Flatten(chunks)| > CAPACITY then Rejected else FeedAll(chunks, stray)
  {
    if chunks != [] {
      CapacityIsTheOnlyBound(chunks[..|chunks| - 1], stray);
    }
  }

  /** The parser object fed a message piece by piece; it stops at an exception. */
  method ReadAll(chunks: seq<string>, stray: int) returns (ok: bool, parser: HttpParser)
    ensures fresh(parser)
    ensures ok == FeedAllBounded(chunks, stray).Parsed?
    ensures parser.Valid() && (ok ==> FeedAllBounded(chunks, stray) == Parsed(parser.state, parser.packet, parser.Rest()))
  {
    parser := new HttpParser(stray);
    ok := true;
    var i := 0;
    assert chunks[..0] == [];
    while i < |chunks| && ok
      invariant i <= |chunks| && parser.Valid() && parser.stray == stray
      invariant ok == FeedAllBounded(chunks[..i], stray).Parsed?
      invariant ok ==> parser.incomingDataBuf == Flatten(chunks[..i]) && parser.Outlook() == FeedAllBounded(chunks[..i], stray)
      invariant !ok ==> FeedAllBounded(chunks[..i], stray) == Rejected
    {
      assert chunks[..i + 1][..i] == chunks[..i];
      ok := parser.OnData(chunks[i]);
      i := i + 1;
    }
    if ok {
      assert chunks[..i] == chunks;
    } else {
      RejectionIsFinal(chunks, i, stray);
    }
  }

  lemma {:induction false} RejectionIsFinal(chunks: seq<string>, i: nat, stray: int)
    requires i <= |chunks| && FeedAllBounded(chunks[..i], stray) == Rejected
    ensures FeedAllBounded(chunks, stray) == Rejected
  {
    if i < |chunks| {
      assert chunks[..|chunks| - 1][..i] == chunks[..i];
      RejectionIsFinal(chunks[..|chunks| - 1], i, stray);
    } else {
      assert chunks[..i] == chunks;
    }
  }
}
