/** The URI parser and printer. */
module Uri {
  import opened TaskQueues
  import opened Text

  const INT_MAX := 0x7fff_ffff

  datatype Components = Components(
    scheme: string, userInfo: string, host: string, port: int, path: string, query: string, fragment: string)

  /** The components of a builder that was given nothing. */
  const NOTHING := Components("", "", "", -1, "/", "", "")

  // ---------------------------------------------------------------------------
  // Character classes
  // ---------------------------------------------------------------------------

  predicate IsUnreserved(c: char) {
    IsAlnum(c) || (c == '-' || c == '.' || c == '_' || c == '~')
  }

  predicate IsSubDelim(c: char) {
    (c == '!' || c == '$' || c == '&' || c == '\'' || c == '(' || c == ')' || c == '*' || c == '+' || c == ',' || c == ';' || c == '=')
  }

  predicate IsGenDelim(c: char) {
    (c == ':' || c == '/' || c == '?' || c == '#' || c == '[' || c == ']' || c == '@')
  }

  predicate IsSchemeChar(c: char) {
    IsAlnum(c) || (c == '+' || c == '-' || c == '.')
  }

  predicate IsUserInfoChar(c: char) {
    IsUnreserved(c) || IsSubDelim(c) || (c == '%' || c == ':')
  }

  predicate IsAuthorityChar(c: char) {
    IsUnreserved(c) || IsSubDelim(c) || (c == '%' || c == '@' || c == ':' || c == '[' || c == ']')
  }

  predicate IsPathChar(c: char) {
    IsUnreserved(c) || IsSubDelim(c) || (c == '%' || c == '/' || c == ':' || c == '@')
  }

  predicate IsQueryChar(c: char) {
    IsPathChar(c) || c == '?'
  }

  predicate IsFragmentChar(c: char) {
    IsQueryChar(c)
  }

  predicate IsLetterOrDigit(c: char) {
    'a' <= c <= 'z' || 'A' <= c <= 'Z' || '0' <= c <= '9'
  }

  /** The classes as sections 2.2, 2.3 and 3 of RFC 3986 list them, with the percent sign counted in where it may stand. */
  lemma CharacterClasses(c: char)
    ensures IsUnreserved(c) <==> IsLetterOrDigit(c) || c in "-._~"
    ensures IsGenDelim(c) <==> c in ":/?#[]@"
    ensures IsSubDelim(c) <==> c in "!$&'()*+,;="
    ensures IsSchemeChar(c) <==> IsLetterOrDigit(c) || c in "+-."
    ensures IsUserInfoChar(c) <==> IsLetterOrDigit(c) || c in "-._~" || c in "!$&'()*+,;=" || c in "%:"
    ensures IsAuthorityChar(c) <==> IsLetterOrDigit(c) || c in "-._~" || c in "!$&'()*+,;=" || c in "%@:[]"
    ensures IsPathChar(c) <==> IsLetterOrDigit(c) || c in "-._~" || c in "!$&'()*+,;=" || c in "%/:@"
    ensures IsQueryChar(c) <==> IsLetterOrDigit(c) || c in "-._~" || c in "!$&'()*+,;=" || c in "%/:@?"
    ensures IsFragmentChar(c) <==> IsQueryChar(c)
  {
    assert c in "!$&'()*+,;=" <==>
             c == '!' || c == '$' || c == '&' || c == '\'' || c == '(' || c == ')' || c == '*' || c == '+' || c == ',' || c == ';' || c == '=';
    assert c in "%/:@" <==> c == '%' || c == '/' || c == ':' || c == '@';
    assert c in "%/:@?" <==> c == '%' || c == '/' || c == ':' || c == '@' || c == '?';
  }

  // ---------------------------------------------------------------------------
  // What a URI reference is made of
  // ---------------------------------------------------------------------------

  /** The parts found in a URI reference; the ones that are missing are None. */
  datatype Parts = Parts(
    scheme: Option<string>, userInfo: Option<string>, host: Option<string>, port: int,
    path: Option<string>, query: Option<string>, fragment: Option<string>)

  const NO_PARTS := Parts(None, None, None, 0, None, None, None)

  /** Where the digits at the end of an authority begin, minus one; the first character counts as no digit. */
  function PortColon(a: string): (t: nat)
    requires a != ""
    ensures t < |a| && All(a[t + 1..], IsDigit) && (t > 0 ==> !IsDigit(a[t]))
  {
    if |a| == 1 || !IsDigit(a[|a| - 1]) then |a| - 1
    else
      var t := PortColon(a[..|a| - 1]);
      assert a[t + 1..] == a[..|a| - 1][t + 1..] + [a[|a| - 1]];
      t
  }

  /** A port is read as an int: too large a number becomes the largest int, none at all leaves what was there. */
  function PortOf(digits: string, stray: int): int
    requires All(digits, IsDigit)
  {
    if digits == "" then stray
    else if DecimalValue(digits) <= INT_MAX then DecimalValue(digits)
    else INT_MAX
  }

  function HostAndPort(a: string, stray: int): (string, int)
    requires a != ""
  {
    var t := PortColon(a);
    if a[t] == ':' then (a[..t], PortOf(a[t + 1..], stray)) else (a, 0)
  }

  /** User information is what precedes the first at sign, if its characters are legal there. */
  function SplitUser(parts: Parts, h: string): Parts {
    var u := SpanWhile(h, IsUserInfoChar);
    if u < |h| && h[u] == '@' then parts.(userInfo := Some(h[..u]), host := Some(h[u + 1..]))
    else parts.(host := Some(h))
  }

  function SplitAuthority(parts: Parts, a: string, stray: int): Parts {
    if a == "" then parts
    else
      var (h, port) := HostAndPort(a, stray);
      SplitUser(parts.(port := port), h)
  }

  function ParseFragment(s: string, parts: Parts): Option<Parts> {
    if s != "" && s[0] == '#' then
      if All(s[1..], IsFragmentChar) then Some(parts.(fragment := Some(s[1..]))) else None
    else Some(parts)
  }

  function ParseQuery(s: string, parts: Parts): Option<Parts> {
    if s != "" && s[0] == '?' then
      var k := Span(s[1..], "#");
      if All(s[1..][..k], IsQueryChar) then ParseFragment(s[1..][k..], parts.(query := Some(s[1..][..k]))) else None
    else ParseFragment(s, parts)
  }

  function ParsePath(s: string, parts: Parts): Option<Parts> {
    if s != "" && IsPathChar(s[0]) then
      var k := Span(s, "?#");
      if All(s[..k], IsPathChar) then ParseQuery(s[k..], parts.(path := Some(s[..k]))) else None
    else ParseQuery(s, parts)
  }

  function ParseHierarchy(s: string, parts: Parts, stray: int): Option<Parts> {
    if |s| >= 2 && s[0] == '/' && s[1] == '/' then
      var k := Span(s[2..], "/?#");
      if All(s[2..][..k], IsAuthorityChar)
      then ParsePath(s[2..][k..], SplitAuthority(parts, s[2..][..k], stray)) else None
    else ParsePath(s, parts)
  }

  /** The parts of s, or None when it is no URI reference. A colon before the first slash ends a scheme. */
  function ParseUri(s: string, stray: int): Option<Parts> {
    var k := Span(s, "/:");
    if k < |s| && s[k] == ':' then
      if IsAlpha(s[0]) && All(s[..k], IsSchemeChar)
      then ParseHierarchy(s[k + 1..], NO_PARTS.(scheme := Some(s[..k])), stray) else None
    else ParseHierarchy(s, NO_PARTS, stray)
  }

  // ---------------------------------------------------------------------------
  // The parser that walks the string
  // ---------------------------------------------------------------------------

  /** Walks to the first of the stop characters, or to the end; fails at a character that is not legal. */
  method Walk(s: string, from: nat, stops: string, legal: char -> bool) returns (ok: bool, end: nat)
    requires from <= |s| && NUL !in s
    ensures ok == All(s[from..][..Span(s[from..], stops)], legal)
    ensures ok ==> end == from + Span(s[from..], stops) <= |s|
  {
    end := from;
    ok := true;
    while At(s, end) != NUL && At(s, end) !in stops
      invariant from <= end <= |s|
      invariant forall i :: from <= i < end ==> s[i] !in stops && legal(s[i])
      decreases |s| - end
    {
      assert end < |s|;
      if !legal(At(s, end)) {
        assert Span(s[from..], stops) > end - from;
        assert s[from..][..Span(s[from..], stops)][end - from] == s[end];
        return false, end;
      }
      end := end + 1;
    }
    SpanAt(s[from..], stops, end - from);
  }

  /** Walks back over the digits of a port. */
  method FindPortColon(a: string) returns (t: nat)
    requires a != ""
    ensures t == PortColon(a)
  {
    t := |a| - 1;
    assert a[..t + 1] == a;
    while IsDigit(a[t]) && t != 0
      invariant t < |a| && PortColon(a) == PortColon(a[..t + 1])
    {
      assert a[..t + 1][..t] == a[..t];
      t := t - 1;
    }
    assert a[..t + 1][t] == a[t];
  }

  method ParseAuthority(a: string, parts: Parts, stray: int) returns (r: Parts)
    ensures r == SplitAuthority(parts, a, stray)
  {
    r := parts;
    if a != "" {
      var portBegin := FindPortColon(a);
      var hostEnd := |a|;
      if a[portBegin] == ':' {
        hostEnd := portBegin;
        r := r.(port := PortOf(a[portBegin + 1..], stray));
      } else {
        r := r.(port := 0);
        assert a[..hostEnd] == a;
      }
      ghost var h := a[..hostEnd];
      assert HostAndPort(a, stray) == (h, r.port);
      var userEnd := 0;
      while userEnd != hostEnd && IsUserInfoChar(a[userEnd])
        invariant userEnd <= hostEnd
        invariant forall i :: 0 <= i < userEnd ==> IsUserInfoChar(h[i])
        decreases hostEnd - userEnd
      {
        userEnd := userEnd + 1;
      }
      SpanWhileAt(h, IsUserInfoChar, userEnd);
      if userEnd < hostEnd && a[userEnd] == '@' {
        assert a[..userEnd] == h[..userEnd] && a[userEnd + 1..hostEnd] == h[userEnd + 1..];
        r := r.(userInfo := Some(a[..userEnd]), host := Some(a[userEnd + 1..hostEnd]));
      } else {
        r := r.(host := Some(a[..hostEnd]));
      }
    }
  }

  /** Parses a NUL-terminated string; stray is what an int holds before it is set. */
  method ParseFrom(s: string, stray: int) returns (r: Option<Parts>)
    requires NUL !in s
    ensures r == ParseUri(s, stray)
  {
    var parts := NO_PARTS;
    var p := 0;
    var p2 := 0;
    var isRelative := true;
    while At(s, p2) != '/' && At(s, p2) != NUL && isRelative
      invariant p2 <= |s|
      invariant forall i :: 0 <= i < p2 ==> s[i] !in "/:"
      invariant !isRelative ==> p2 < |s| && s[p2] == ':'
      decreases |s| - p2, isRelative
    {
      if At(s, p2) == ':' {
        isRelative := false;
      } else {
        p2 := p2 + 1;
      }
    }
    SpanAt(s, "/:", p2);
    if !isRelative {
      if !IsAlpha(At(s, p)) {
        return None;
      }
      p := p + 1;
      while At(s, p) != ':'
        invariant p <= p2
        invariant forall i :: 0 <= i < p ==> IsSchemeChar(s[i])
        decreases p2 - p
      {
        if !IsSchemeChar(At(s, p)) {
          assert s[..p2][p] == s[p];
          return None;
        }
        p := p + 1;
      }
      assert p == p2;
      parts := parts.(scheme := Some(s[..p]));
      p := p + 1;
    }
    assert s[p..] == if isRelative then s else s[p2 + 1..];
    r := ParseRest(s, p, parts, stray);
  }

  /** Authority, path, query and fragment, from position begin. */
  method ParseRest(s: string, begin: nat, found: Parts, stray: int) returns (r: Option<Parts>)
    requires NUL !in s && begin <= |s|
    ensures r == ParseHierarchy(s[begin..], found, stray)
  {
    var p := begin;
    var parts := found;
    ghost var rest := s[begin..];
    assert At(rest, 0) == At(s, p) && At(rest, 1) == At(s, p + 1);
    if At(s, p) == '/' && At(s, p + 1) == '/' {
      p := p + 2;
      Slice(s, begin, p);
      var ok, end := Walk(s, p, "/?#", IsAuthorityChar);
      if !ok {
        return None;
      }
      Slice(s, p, end);
      parts := ParseAuthority(s[p..end], parts, stray);
      p := end;
    }
    r := ParseResource(s, p, parts);
  }

  method ParseResource(s: string, begin: nat, found: Parts) returns (r: Option<Parts>)
    requires NUL !in s && begin <= |s|
    ensures r == ParsePath(s[begin..], found)
  {
    var p := begin;
    var parts := found;
    if At(s, p) == '/' || IsPathChar(At(s, p)) {
      var ok, end := Walk(s, p, "?#", IsPathChar);
      if !ok {
        return None;
      }
      Slice(s, p, end);
      parts := parts.(path := Some(s[p..end]));
      p := end;
    }
    r := ParseQueryAt(s, p, parts);
  }

  method ParseQueryAt(s: string, begin: nat, found: Parts) returns (r: Option<Parts>)
    requires NUL !in s && begin <= |s|
    ensures r == ParseQuery(s[begin..], found)
  {
    var p := begin;
    var parts := found;
    if At(s, p) == '?' {
      p := p + 1;
      Slice(s, begin, p);
      var ok, end := Walk(s, p, "#", IsQueryChar);
      if !ok {
        return None;
      }
      Slice(s, p, end);
      parts := parts.(query := Some(s[p..end]));
      p := end;
    }
    r := ParseFragmentAt(s, p, parts);
  }

  method ParseFragmentAt(s: string, begin: nat, found: Parts) returns (r: Option<Parts>)
    requires NUL !in s && begin <= |s|
    ensures r == ParseFragment(s[begin..], found)
  {
    var parts := found;
    if At(s, begin) == '#' {
      var p := begin + 1;
      Slice(s, begin, p);
      var ok, end := Walk(s, p, "", IsFragmentChar);
      SpanAt(s[p..], "", |s[p..]|);
      assert s[p..][..|s[p..]|] == s[p..];
      if !ok {
        return None;
      }
      assert s[p..end] == s[p..];
      parts := parts.(fragment := Some(s[p..end]));
    }
    r := Some(parts);
  }

  // ---------------------------------------------------------------------------
  // Components
  // ---------------------------------------------------------------------------

  function OrEmpty(o: Option<string>): string {
    if o.Some? then o.value else ""
  }

  /** The components a parse writes: scheme and host in lower case, and a path that is never missing. */
  function WriteTo(parts: Parts): Components {
    Components(Lower(OrEmpty(parts.scheme)), OrEmpty(parts.userInfo), Lower(OrEmpty(parts.host)), parts.port,
               if parts.path.Some? then parts.path.value else "/",
               OrEmpty(parts.query), OrEmpty(parts.fragment))
  }

  /** What printing does to the components first. */
  function Canonical(c: Components): Components {
    c.(scheme := Lower(c.scheme), host := Lower(c.host),
       path := if c.host != "" && (c.path == "" || c.path[0] != '/') then "/" + c.path else c.path)
  }

  function PortText(port: int): string {
    if port > 0 then ":" + Decimal(port) else ""
  }

  function AuthorityText(c: Components): string {
    (if c.userInfo != "" then c.userInfo + "@" else "") + c.host + PortText(c.port)
  }

  function TailText(c: Components): string {
    (if c.query != "" then "?" + c.query else "") + (if c.fragment != "" then "#" + c.fragment else "")
  }

  function SchemeText(c: Components): string {
    if c.scheme != "" then c.scheme + ":" else ""
  }

  function HostText(c: Components): string {
    if c.host != "" then "//" + AuthorityText(c) else ""
  }

  /** The text of canonical components. */
  function Print(c: Components): string {
    SchemeText(c) + (HostText(c) + (c.path + TailText(c)))
  }

  lemma Concat4(a: string, b: string, c: string, d: string)
    ensures a + b + c + d == a + (b + (c + d))
  {
  }

  function Join(c: Components): string {
    Print(Canonical(c))
  }

  /** The components of a URI object made from a string, or None when the string is rejected. */
  function FromString(s: string, stray: int): Option<Components> {
    match ParseUri(CString(s), stray)
    case None => None
    case Some(parts) => Some(Canonical(WriteTo(parts)))
  }

  class ComponentsObject {
    var m: Components

    constructor (c: Components)
      ensures m == c
    {
      m := c;
    }

    /** Puts the components into canonical form and appends them to the text one by one. */
    method JoinInPlace() returns (ret: string)
      modifies this
      ensures m == Canonical(old(m)) && ret == Join(old(m))
    {
      m := m.(scheme := Lower(m.scheme));
      m := m.(host := Lower(m.host));
      if m.host != "" && m.path == "" {
        m := m.(path := "/");
        assert "/" + "" == "/";
      } else if m.host != "" && m.path[0] != '/' {
        m := m.(path := "/" + m.path);
      }
      assert m == Canonical(old(m));
      ret := AppendScheme("");
      ret := AppendAuthority(ret);
      ret := ret + m.path;
      ret := AppendTail(ret);
      assert "" + SchemeText(m) == SchemeText(m);
      Concat4(SchemeText(m), HostText(m), m.path, TailText(m));
    }

    method AppendScheme(text: string) returns (ret: string)
      ensures ret == text + SchemeText(m)
    {
      ret := text;
      if m.scheme != "" {
        ret := ret + m.scheme;
        ret := ret + ":";
        assert ret == text + (m.scheme + ":");
      }
    }

    method AppendAuthority(text: string) returns (ret: string)
      ensures ret == text + HostText(m)
    {
      ret := text;
      if m.host != "" {
        ret := ret + "//";
        if m.userInfo != "" {
          ret := ret + (m.userInfo + "@");
        }
        ret := ret + m.host;
        if m.port > 0 {
          ret := ret + (":" + Decimal(m.port));
        }
        assert ret == text + ("//" + AuthorityText(m));
      }
    }

    method AppendTail(text: string) returns (ret: string)
      ensures ret == text + TailText(m)
    {
      ret := text;
      if m.query != "" {
        ret := ret + ("?" + m.query);
      }
      if m.fragment != "" {
        ret := ret + ("#" + m.fragment);
      }
      assert ret == text + TailText(m);
    }
  }
}
