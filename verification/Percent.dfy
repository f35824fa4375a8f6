/** Percent encoding and decoding. */
module Percent {
  import opened Sequences
  import opened TaskQueues
  import opened Text
  import opened Uri

  const HEX := "0123456789ABCDEF"

  function EncodeChar(c: char, shouldEncode: char -> bool): string {
    if shouldEncode(c) then ['%', HEX[(c as int / 16) % 16], HEX[c as int % 16]] else [c]
  }

  /** Every character that should be encoded becomes a percent sign and two hexadecimal digits. */
  function Encode(raw: string, shouldEncode: char -> bool): string {
    if raw == "" then "" else EncodeChar(raw[0], shouldEncode) + Encode(raw[1..], shouldEncode)
  }

  function HexValue(c: char): Option<nat> {
    if '0' <= c <= '9' then Some(c as int - '0' as int)
    else if 'A' <= c <= 'F' then Some(10 + c as int - 'A' as int)
    else if 'a' <= c <= 'f' then Some(10 + c as int - 'a' as int)
    else None
  }

  lemma HexValueRange(c: char)
    requires HexValue(c).Some?
    ensures HexValue(c).value < 16
  {
  }

  function Prepend(a: string, o: Option<string>): Option<string> {
    if o.None? then None else Some(a + o.value)
  }

  /** None when a percent sign is not followed by two hexadecimal digits, or a character is not ASCII. */
  function Decode(s: string): Option<string> {
    if s == "" then Some("")
    else if s[0] == '%' then
      if |s| < 3 || HexValue(s[1]).None? || HexValue(s[2]).None? then None
      else
        HexValueRange(s[1]);
        HexValueRange(s[2]);
        Prepend([(HexValue(s[1]).value * 16 + HexValue(s[2]).value) as char], Decode(s[3..]))
    else if s[0] as int > 127 then None
    else Prepend([s[0]], Decode(s[1..]))
  }

  // ---------------------------------------------------------------------------
  // The loops
  // ---------------------------------------------------------------------------

  lemma EncodeOneMore(encoded: string, raw: string, i: nat, shouldEncode: char -> bool)
    requires i < |raw|
    ensures encoded + Encode(raw[i..], shouldEncode)
         == (encoded + EncodeChar(raw[i], shouldEncode)) + Encode(raw[i + 1..], shouldEncode)
  {
    assert raw[i..][1..] == raw[i + 1..];
    Associates(encoded, EncodeChar(raw[i], shouldEncode), Encode(raw[i + 1..], shouldEncode));
  }

  method EncodeImpl(raw: string, shouldEncode: char -> bool) returns (encoded: string)
    ensures encoded == Encode(raw, shouldEncode)
  {
    encoded := "";
    var i := 0;
    while i < |raw|
      invariant i <= |raw|
      invariant encoded + Encode(raw[i..], shouldEncode) == Encode(raw, shouldEncode)
    {
      var ch := raw[i];
      ghost var before := encoded;
      if shouldEncode(ch) {
        encoded := encoded + ['%'];
        encoded := encoded + [HEX[(ch as int / 16) % 16]];
        encoded := encoded + [HEX[ch as int % 16]];
      } else {
        encoded := encoded + [ch];
      }
      assert encoded == before + EncodeChar(ch, shouldEncode);
      EncodeOneMore(before, raw, i, shouldEncode);
      i := i + 1;
    }
  }

  lemma PrependTwice(a: string, b: string, o: Option<string>)
    ensures Prepend(a, Prepend(b, o)) == Prepend(a + b, o)
  {
    if o.Some? {
      assert a + (b + o.value) == a + b + o.value;
    }
  }

  method DecodeTemplate(encoded: string) returns (raw: Option<string>)
    ensures raw == Decode(encoded)
  {
    var text := "";
    var i := 0;
    assert encoded[0..] == encoded;
    assert Decode(encoded).Some? ==> "" + Decode(encoded).value == Decode(encoded).value;
    while i < |encoded|
      invariant i <= |encoded|
      invariant Decode(encoded) == Prepend(text, Decode(encoded[i..]))
    {
      var rest := encoded[i..];
      if encoded[i] == '%' {
        i := i + 1;
        if i == |encoded| {
          return None;
        }
        var high := HexValue(encoded[i]);
        if high.None? {
          return None;
        }
        i := i + 1;
        if i == |encoded| {
          return None;
        }
        var low := HexValue(encoded[i]);
        if low.None? {
          return None;
        }
        assert rest[1] == encoded[i - 1] && rest[2] == encoded[i] && rest[3..] == encoded[i + 1..];
        HexValueRange(encoded[i - 1]);
        HexValueRange(encoded[i]);
        var c := [(high.value * 16 + low.value) as char];
        PrependTwice(text, c, Decode(rest[3..]));
        text := text + c;
      } else if encoded[i] as int > 127 {
        return None;
      } else {
        assert rest[1..] == encoded[i + 1..];
        PrependTwice(text, [encoded[i]], Decode(rest[1..]));
        text := text + [encoded[i]];
      }
      i := i + 1;
    }
    raw := Some(text);
    assert encoded[i..] == "";
    assert text + "" == text;
  }

  // ---------------------------------------------------------------------------
  // Decoding undoes encoding
  // ---------------------------------------------------------------------------

  /** A choice of characters to encode that leaves no percent sign and nothing outside ASCII as it is. */
  ghost predicate Reversible(shouldEncode: char -> bool) {
    shouldEncode('%') && forall c: char :: 127 < c as int < 256 ==> shouldEncode(c)
  }

  lemma HexRoundTrip(n: nat)
    requires n < 16
    ensures HexValue(HEX[n]) == Some(n)
  {
  }

  lemma HexDigits(n: nat)
    requires n < 256
    ensures HexValue(HEX[(n / 16) % 16]) == Some(n / 16) && HexValue(HEX[n % 16]) == Some(n % 16)
  {
    HexRoundTrip((n / 16) % 16);
    HexRoundTrip(n % 16);
  }

  lemma TripletDecodes(a: char, b: char, rest: string)
    requires HexValue(a).Some? && HexValue(b).Some? && HexValue(a).value * 16 + HexValue(b).value < 256
    ensures Decode(['%', a, b] + rest) == Prepend([(HexValue(a).value * 16 + HexValue(b).value) as char], Decode(rest))
  {
    var s := ['%', a, b] + rest;
    assert s[0] == '%' && s[1] == a && s[2] == b && s[3..] == rest;
  }

  lemma EncodedCharDecodes(c: char, rest: string, shouldEncode: char -> bool)
    requires Reversible(shouldEncode) && c as int < 256
    ensures Decode(EncodeChar(c, shouldEncode) + rest) == Prepend([c], Decode(rest))
  {
    if shouldEncode(c) {
      var n := c as int;
      HexDigits(n);
      TripletDecodes(HEX[(n / 16) % 16], HEX[n % 16], rest);
    } else {
      assert ([c] + rest)[1..] == rest;
    }
  }

  lemma {:induction false} DecodeUndoesEncode(raw: string, shouldEncode: char -> bool)
    requires Reversible(shouldEncode) && Bytes(raw)
    ensures Decode(Encode(raw, shouldEncode)) == Some(raw)
  {
    if raw != "" {
      DecodeUndoesEncode(raw[1..], shouldEncode);
      EncodedCharDecodes(raw[0], Encode(raw[1..], shouldEncode), shouldEncode);
      assert [raw[0]] + raw[1..] == raw;
    }
  }

  /** Decoding undoes encoding for all byte strings exactly for the reversible choices. */
  lemma DecodeUndoesEncodeExactly(shouldEncode: char -> bool)
    ensures (forall raw :: Bytes(raw) ==> Decode(Encode(raw, shouldEncode)) == Some(raw)) <==> Reversible(shouldEncode)
  {
    if Reversible(shouldEncode) {
      forall raw | Bytes(raw) ensures Decode(Encode(raw, shouldEncode)) == Some(raw) {
        DecodeUndoesEncode(raw, shouldEncode);
      }
    } else {
      var c := if !shouldEncode('%') then '%' else var d: char :| 127 < d as int < 256 && !shouldEncode(d); d;
      assert Encode([c][1..], shouldEncode) == "";
      assert Encode([c], shouldEncode) == [c];
      assert Bytes([c]) && Decode([c]) == None;
    }
  }

  lemma {:induction false} EncodedClass(raw: string, shouldEncode: char -> bool, legal: char -> bool)
    requires forall c :: !shouldEncode(c) ==> legal(c)
    requires legal('%') && forall n :: 0 <= n < 16 ==> legal(HEX[n])
    ensures All(Encode(raw, shouldEncode), legal)
  {
    if raw != "" {
      EncodedClass(raw[1..], shouldEncode, legal);
      AllConcat(EncodeChar(raw[0], shouldEncode), Encode(raw[1..], shouldEncode), legal);
    }
  }

  // ---------------------------------------------------------------------------
  // The choices made for the places of a URI
  // ---------------------------------------------------------------------------

  datatype Place = UserInfoPlace | HostPlace | PathPlace | QueryPlace | FragmentPlace | FullUri

  /** Which characters encode_uri encodes. */
  predicate ShouldEncode(place: Place, c: char) {
    match place
    case UserInfoPlace => !IsUserInfoChar(c) || c == '%' || c == '+'
    case HostPlace => c as int > 127
    case PathPlace => !IsPathChar(c) || c == '%' || c == '+'
    case QueryPlace => !IsQueryChar(c) || c == '%' || c == '+'
    case FragmentPlace => !IsFragmentChar(c) || c == '%' || c == '+'
    case FullUri => !IsUnreserved(c) && !(IsGenDelim(c) || IsSubDelim(c))
  }

  /** Which characters are encoded in the names and values of a query. */
  predicate EncodesInQuery(c: char) {
    c == '&' || c == ';' || c == '=' || c == '%' || c == '+' || !IsQueryChar(c)
  }

  function EncodeUri(raw: string, place: Place): string {
    Encode(raw, PlaceEncoder(place))
  }

  function EncodeQuery(raw: string): string {
    Encode(raw, EncodesInQuery)
  }

  function PlaceEncoder(place: Place): char -> bool {
    c => ShouldEncode(place, c)
  }

  /** Which characters stay as they are, listed for each place. */
  lemma KeptCharacters(c: char)
    ensures !ShouldEncode(UserInfoPlace, c) <==> IsLetterOrDigit(c) || c in "-._~" || c in "!$&'()*,;=:"
    ensures !ShouldEncode(HostPlace, c) <==> c as int < 128
    ensures !ShouldEncode(PathPlace, c) <==> IsLetterOrDigit(c) || c in "-._~" || c in "!$&'()*,;=/:@"
    ensures !ShouldEncode(QueryPlace, c) <==> IsLetterOrDigit(c) || c in "-._~" || c in "!$&'()*,;=/:@?"
    ensures !ShouldEncode(FragmentPlace, c) <==> IsLetterOrDigit(c) || c in "-._~" || c in "!$&'()*,;=/:@?"
    ensures !ShouldEncode(FullUri, c) <==> IsLetterOrDigit(c) || c in "-._~" || c in "!$&'()*+,;=" || c in ":/?#[]@"
    ensures !EncodesInQuery(c) <==> IsLetterOrDigit(c) || c in "-._~" || c in "!$'()*,/:@?"
  {
    CharacterClasses(c);
  }

  lemma ReversiblePlaces(place: Place)
    ensures Reversible(PlaceEncoder(place)) <==> place != HostPlace
  {
    if place == HostPlace {
      assert !PlaceEncoder(place)('%');
    }
  }

  /** Every place but the host is encoded so that it can be decoded again. */
  lemma PlacesAreReversible(place: Place)
    ensures (forall raw :: Bytes(raw) ==> Decode(EncodeUri(raw, place)) == Some(raw)) <==> place != HostPlace
  {
    ReversiblePlaces(place);
    DecodeUndoesEncodeExactly(PlaceEncoder(place));
  }

  /** Query encoding can be decoded again, and its text holds no separator. */
  lemma QueryEncoding(raw: string)
    ensures Bytes(raw) ==> Decode(EncodeQuery(raw)) == Some(raw)
    ensures All(EncodeQuery(raw), c => IsQueryChar(c) && c != '&' && c != ';' && c != '=')
  {
    if Bytes(raw) {
      DecodeUndoesEncode(raw, EncodesInQuery);
    }
    EncodedClass(raw, EncodesInQuery, c => IsQueryChar(c) && c != '&' && c != ';' && c != '=');
  }

  lemma {:induction false} NothingToEncode(raw: string)
    requires forall i :: 0 <= i < |raw| ==> !EncodesInQuery(raw[i])
    ensures EncodeQuery(raw) == raw
  {
    if raw != "" {
      NothingToEncode(raw[1..]);
    }
  }
}
