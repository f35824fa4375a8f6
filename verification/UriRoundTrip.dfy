/** Parsing undoes printing. */
module UriRoundTrip {
  import opened TaskQueues
  import opened Text
  import opened Uri

  /** Components made of the characters their places allow, with scheme and host in lower case. */
  predicate Legal(c: Components) {
    && (c.scheme != "" ==> IsAlpha(c.scheme[0])) && All(c.scheme, IsSchemeChar) && IsLowerCase(c.scheme)
    && All(c.userInfo, IsUserInfoChar)
    && All(c.host, IsAuthorityChar) && IsLowerCase(c.host)
    && c.port <= INT_MAX
    && All(c.path, IsPathChar)
    && All(c.query, IsQueryChar)
    && All(c.fragment, IsFragmentChar)
  }

  /** The host ends the way a port begins: with a colon and nothing but digits behind it. */
  predicate EndsLikePort(host: string) {
    host != "" && host[PortColon(host)] == ':'
  }

  /** The host begins the way user information does: legal characters for it up to an at sign. */
  predicate BeginsLikeUser(host: string) {
    var u := SpanWhile(host, IsUserInfoChar);
    u < |host| && host[u] == '@'
  }

  predicate HostUnambiguous(c: Components) {
    && (c.userInfo == "" ==> !BeginsLikeUser(c.host))
    && (c.port <= 0 ==> !EndsLikePort(c.host))
  }

  // ---------------------------------------------------------------------------
  // Behind the authority
  // ---------------------------------------------------------------------------

  function FragmentText(c: Components): string {
    if c.fragment != "" then "#" + c.fragment else ""
  }

  function SomeUnlessEmpty(s: string): Option<string> {
    if s == "" then None else Some(s)
  }

  ghost predicate StopsAt(stops: string, legal: char -> bool) {
    forall ch :: ch in stops ==> !legal(ch)
  }

  lemma StopsAreIllegal()
    ensures StopsAt("/:", IsSchemeChar) && StopsAt("/?#", IsAuthorityChar) && StopsAt("?#", IsPathChar) && StopsAt("#", IsQueryChar)
  {
  }

  /** Legal characters do not stop a walk. */
  lemma WalkStops(a: string, b: string, stops: string, legal: char -> bool)
    requires All(a, legal) && StopsAt(stops, legal)
    requires b != "" ==> b[0] in stops
    ensures Span(a + b, stops) == |a|
    ensures (a + b)[..|a|] == a && (a + b)[|a|..] == b
  {
    forall i | 0 <= i < |a| ensures (a + b)[i] !in stops {
      assert (a + b)[i] == a[i];
    }
    SpanAt(a + b, stops, |a|);
  }

  lemma FragmentRoundTrip(c: Components, parts: Parts)
    requires Legal(c) && parts.fragment == None
    ensures ParseFragment(FragmentText(c), parts) == Some(parts.(fragment := SomeUnlessEmpty(c.fragment)))
  {
    assert ("#" + c.fragment)[1..] == c.fragment;
  }

  lemma QueryIsCut(query: string, rest: string, parts: Parts)
    requires All(query, IsQueryChar) && (rest == "" || rest[0] == '#')
    ensures ParseQuery("?" + query + rest, parts) == ParseFragment(rest, parts.(query := Some(query)))
  {
    assert ("?" + query + rest)[1..] == query + rest;
    StopsAreIllegal();
    WalkStops(query, rest, "#", IsQueryChar);
  }

  lemma TailRoundTrip(c: Components, parts: Parts)
    requires Legal(c) && parts.query == None && parts.fragment == None
    ensures ParseQuery(TailText(c), parts)
         == Some(parts.(query := SomeUnlessEmpty(c.query), fragment := SomeUnlessEmpty(c.fragment)))
  {
    FragmentRoundTrip(c, parts.(query := SomeUnlessEmpty(c.query)));
    if c.query != "" {
      assert TailText(c) == "?" + c.query + FragmentText(c);
      QueryIsCut(c.query, FragmentText(c), parts);
    } else {
      assert TailText(c) == FragmentText(c);
    }
  }

  lemma PathIsCut(path: string, rest: string, parts: Parts)
    requires path != "" && All(path, IsPathChar) && (rest == "" || rest[0] == '?' || rest[0] == '#')
    ensures ParsePath(path + rest, parts) == ParseQuery(rest, parts.(path := Some(path)))
  {
    assert (path + rest)[0] == path[0];
    StopsAreIllegal();
    WalkStops(path, rest, "?#", IsPathChar);
  }

  lemma ResourceRoundTrip(c: Components, parts: Parts)
    requires Legal(c) && parts.path == None && parts.query == None && parts.fragment == None
    ensures ParsePath(c.path + TailText(c), parts)
         == Some(parts.(path := SomeUnlessEmpty(c.path), query := SomeUnlessEmpty(c.query),
                        fragment := SomeUnlessEmpty(c.fragment)))
  {
    TailRoundTrip(c, parts.(path := SomeUnlessEmpty(c.path)));
    TailBegins(c);
    if c.path != "" {
      PathIsCut(c.path, TailText(c), parts);
    } else {
      assert c.path + TailText(c) == TailText(c);
      NoPathIsCut(TailText(c), parts);
    }
  }

  lemma TailBegins(c: Components)
    ensures TailText(c) == "" || TailText(c)[0] == '?' || TailText(c)[0] == '#'
  {
  }

  lemma NoPathIsCut(rest: string, parts: Parts)
    requires rest == "" || rest[0] == '?' || rest[0] == '#'
    ensures ParsePath(rest, parts) == ParseQuery(rest, parts)
  {
  }

  // ---------------------------------------------------------------------------
  // The authority
  // ---------------------------------------------------------------------------

  lemma {:induction false} PortColonAt(a: string, t: nat)
    requires t < |a| && (forall i :: t < i < |a| ==> IsDigit(a[i])) && (t == 0 || !IsDigit(a[t]))
    ensures PortColon(a) == t
  {
    if t < |a| - 1 {
      assert IsDigit(a[|a| - 1]);
      PortColonAt(a[..|a| - 1], t);
    }
  }

  function UserText(c: Components): string {
    if c.userInfo != "" then c.userInfo + "@" else ""
  }

  /** A port that was printed is found again. */
  lemma PrintedPortIsFound(a: string, port: int, stray: int)
    requires 0 < port <= INT_MAX
    ensures HostAndPort(a + PortText(port), stray) == (a, port)
  {
    var s := a + PortText(port);
    assert s == a + ":" + Decimal(port);
    assert s[|a|] == ':' && s[..|a|] == a && s[|a| + 1..] == Decimal(port);
    PortColonAt(s, |a|);
    DecimalRoundTrip(port);
  }

  lemma {:induction false} DigitHostHasNoPort(pre: string, host: string)
    requires host != "" && IsDigit(host[PortColon(host)]) && pre != "" && pre[|pre| - 1] == '@'
    ensures PortColon(pre + host) == |pre| - 1
  {
    var m := |host| - 1;
    assert (pre + host)[..|pre| + m] == pre + host[..m];
    if m > 0 {
      DigitHostHasNoPort(pre, host[..m]);
    } else {
      assert pre + host[..m] == pre;
    }
  }

  lemma {:induction false} HostEndDecides(pre: string, host: string)
    requires host != "" && (pre == "" || !IsDigit(host[PortColon(host)]))
    ensures PortColon(pre + host) == |pre| + PortColon(host)
  {
    var m := |host| - 1;
    if m > 0 && IsDigit(host[m]) {
      assert (pre + host)[..|pre| + m] == pre + host[..m];
      HostEndDecides(pre, host[..m]);
    } else {
      assert pre == "" ==> pre + host == host;
    }
  }

  lemma Shifted(pre: string, host: string, t: nat)
    requires t < |host|
    ensures (pre + host)[|pre| + t] == host[t]
    ensures (pre + host)[..|pre| + t] == pre + host[..t]
    ensures (pre + host)[|pre| + t + 1..] == host[t + 1..]
  {
  }

  /** What is read, with t the position of the colon. */
  lemma HostAndPortAt(a: string, t: nat, c: char, front: string, digits: string, stray: int)
    requires a != "" && PortColon(a) == t && a[t] == c && a[..t] == front && a[t + 1..] == digits && All(digits, IsDigit)
    ensures HostAndPort(a, stray) == if c == ':' then (front, PortOf(digits, stray)) else (a, 0)
  {
  }

  lemma NoPortAtEnd(pre: string, host: string, t: nat, stray: int)
    requires host != "" && t == PortColon(host) && (pre == "" || !IsDigit(host[t]))
    ensures HostAndPort(pre + host, stray)
         == if host[t] == ':' then (pre + host[..t], PortOf(host[t + 1..], stray)) else (pre + host, 0)
  {
    HostEndDecides(pre, host);
    Shifted(pre, host, t);
    HostAndPortAt(pre + host, |pre| + t, host[t], pre + host[..t], host[t + 1..], stray);
  }

  lemma NoPortBehindUser(pre: string, host: string, stray: int)
    requires host != "" && IsDigit(host[PortColon(host)]) && pre != "" && pre[|pre| - 1] == '@'
    ensures HostAndPort(pre + host, stray) == (pre + host, 0)
  {
    DigitHostHasNoPort(pre, host);
    assert (pre + host)[|pre| - 1] == '@';
  }

  /** Without a port, the end of the host decides. */
  lemma NoPortIsFound(pre: string, host: string, stray: int)
    requires host != "" && (pre == "" || pre[|pre| - 1] == '@')
    ensures HostAndPort(pre + host, stray)
         == if EndsLikePort(host) then (pre + host[..PortColon(host)], PortOf(host[PortColon(host) + 1..], stray))
            else (pre + host, 0)
  {
    if IsDigit(host[PortColon(host)]) && pre != "" {
      NoPortBehindUser(pre, host, stray);
    } else {
      NoPortAtEnd(pre, host, PortColon(host), stray);
    }
  }

  /** User information that was printed is found again. */
  lemma PrintedUserIsFound(userInfo: string, host: string, parts: Parts)
    requires All(userInfo, IsUserInfoChar)
    ensures SplitUser(parts, userInfo + "@" + host) == parts.(userInfo := Some(userInfo), host := Some(host))
  {
    var h := userInfo + "@" + host;
    var n := |userInfo|;
    assert forall i :: 0 <= i < n ==> h[i] == userInfo[i];
    assert h[n] == '@' && h[..n] == userInfo && h[n + 1..] == host;
    SpanWhileAt(h, IsUserInfoChar, n);
  }

  /** A text without user information is taken as the host, unless it begins like some. */
  lemma UserRoundTrip(c: Components, host: string, parts: Parts)
    requires All(c.userInfo, IsUserInfoChar) && parts.userInfo == None
    ensures var r := SplitUser(parts, UserText(c) + host);
            && r == parts.(userInfo := r.userInfo, host := r.host) && r.host.Some? && |r.host.value| <= |host|
            && (c.userInfo != "" || !BeginsLikeUser(host) ==>
                  r.userInfo == SomeUnlessEmpty(c.userInfo) && r.host.value == host)
            && (c.userInfo == "" && BeginsLikeUser(host) ==> |r.host.value| < |host|)
  {
    if c.userInfo != "" {
      PrintedUserIsFound(c.userInfo, host, parts);
    } else {
      assert UserText(c) + host == host;
    }
  }

  function Positive(port: int): int {
    if port > 0 then port else 0
  }

  /** What is read back as the host, before user information is split off, and as the port. */
  function HostRead(c: Components): string
    requires c.host != ""
  {
    if c.port <= 0 && EndsLikePort(c.host) then c.host[..PortColon(c.host)] else c.host
  }

  function PortRead(c: Components, stray: int): int
    requires c.host != ""
  {
    if c.port > 0 then c.port
    else if EndsLikePort(c.host) then PortOf(c.host[PortColon(c.host) + 1..], stray)
    else 0
  }

  lemma AuthoritySplits(c: Components, parts: Parts, stray: int)
    requires c.host != "" && c.port <= INT_MAX
    ensures SplitAuthority(parts, AuthorityText(c), stray)
         == SplitUser(parts.(port := PortRead(c, stray)), UserText(c) + HostRead(c))
  {
    var head := UserText(c) + c.host;
    assert AuthorityText(c) == head + PortText(c.port);
    if c.port > 0 {
      PrintedPortIsFound(head, c.port, stray);
    } else {
      assert AuthorityText(c) == head;
      NoPortIsFound(UserText(c), c.host, stray);
    }
  }

  /** The parts of a printed authority are the ones printed, exactly when the host is unambiguous. */
  lemma AuthorityRoundTrip(c: Components, parts: Parts, stray: int)
    requires Legal(c) && c.host != "" && parts.userInfo == None
    ensures var r := SplitAuthority(parts, AuthorityText(c), stray);
            && r == parts.(userInfo := r.userInfo, host := r.host, port := r.port) && r.host.Some?
            && (HostUnambiguous(c) ==> r == parts.(userInfo := SomeUnlessEmpty(c.userInfo), host := Some(c.host),
                                                   port := Positive(c.port)))
            && (!HostUnambiguous(c) ==> |r.host.value| < |c.host|)
  {
    AuthoritySplits(c, parts, stray);
    UserRoundTrip(c, HostRead(c), parts.(port := PortRead(c, stray)));
  }

  // ---------------------------------------------------------------------------
  // The whole
  // ---------------------------------------------------------------------------

  lemma AuthorityIsLegal(c: Components)
    requires Legal(c)
    ensures All(AuthorityText(c), IsAuthorityChar)
  {
    AllConcat(UserText(c) + c.host, PortText(c.port), IsAuthorityChar);
    AllConcat(UserText(c), c.host, IsAuthorityChar);
    AllConcat(c.userInfo, "@", IsAuthorityChar);
    if c.port > 0 {
      AllConcat(":", Decimal(c.port), IsAuthorityChar);
    }
  }

  lemma HierarchyRoundTrip(c: Components, parts: Parts, stray: int)
    requires Legal(c) && c.host != "" && c.path != "" && c.path[0] == '/'
    requires parts == NO_PARTS.(scheme := parts.scheme)
    ensures var r := ParseHierarchy(HostText(c) + (c.path + TailText(c)), parts, stray);
            && r.Some?
            && r.value == SplitAuthority(parts, AuthorityText(c), stray).(
                 path := Some(c.path), query := SomeUnlessEmpty(c.query), fragment := SomeUnlessEmpty(c.fragment))
  {
    AuthorityIsLegal(c);
    AuthorityIsCut(AuthorityText(c), c.path + TailText(c), parts, stray);
    AuthorityRoundTrip(c, parts, stray);
    ResourceRoundTrip(c, SplitAuthority(parts, AuthorityText(c), stray));
  }

  lemma AuthorityIsCut(a: string, rest: string, parts: Parts, stray: int)
    requires All(a, IsAuthorityChar) && rest != "" && rest[0] == '/'
    ensures ParseHierarchy("//" + a + rest, parts, stray) == ParsePath(rest, SplitAuthority(parts, a, stray))
  {
    assert ("//" + a + rest)[2..] == a + rest;
    StopsAreIllegal();
    WalkStops(a, rest, "/?#", IsAuthorityChar);
  }

  lemma SchemeIsFound(c: Components, rest: string, stray: int)
    requires Legal(c) && (c.scheme == "" ==> rest != "" && rest[0] == '/')
    ensures ParseUri(SchemeText(c) + rest, stray)
         == ParseHierarchy(rest, NO_PARTS.(scheme := SomeUnlessEmpty(c.scheme)), stray)
  {
    var s := SchemeText(c) + rest;
    if c.scheme != "" {
      assert s == c.scheme + (":" + rest);
      StopsAreIllegal();
      WalkStops(c.scheme, ":" + rest, "/:", IsSchemeChar);
      assert s[|c.scheme|] == ':';
      assert s[|c.scheme| + 1..] == rest;
      assert s[0] == c.scheme[0];
    } else {
      assert s == rest;
      SpanAt(s, "/:", 0);
    }
  }

  /** What is read back from printed components that have a host. */
  lemma PrintedIsParsed(c: Components, stray: int)
    requires Legal(c) && c.host != "" && c.path != "" && c.path[0] == '/'
    ensures ParseUri(Print(c), stray)
         == Some(SplitAuthority(NO_PARTS.(scheme := SomeUnlessEmpty(c.scheme)), AuthorityText(c), stray).(
                   path := Some(c.path), query := SomeUnlessEmpty(c.query), fragment := SomeUnlessEmpty(c.fragment)))
  {
    var rest := HostText(c) + (c.path + TailText(c));
    SchemeIsFound(c, rest, stray);
    HierarchyRoundTrip(c, NO_PARTS.(scheme := SomeUnlessEmpty(c.scheme)), stray);
  }

  /**
   * Printing legal components with a host and a rooted path always gives a valid URI, and reading it back gives the
   * same components, up to a port that is not positive, exactly when the host is unambiguous.
   */
  lemma ParseUndoesPrint(c: Components, stray: int)
    requires Legal(c) && c.host != "" && c.path != "" && c.path[0] == '/'
    ensures Join(c) == Print(c)
    ensures ParseUri(Join(c), stray).Some?
    ensures WriteTo(ParseUri(Join(c), stray).value) == c.(port := Positive(c.port)) <==> HostUnambiguous(c)
    ensures var d := WriteTo(ParseUri(Join(c), stray).value);
            && d.scheme == c.scheme && d.path == c.path && d.query == c.query && d.fragment == c.fragment
            && (d.host == c.host <==> HostUnambiguous(c))
  {
    LowerIsLowerCase(c.scheme);
    LowerIsLowerCase(c.host);
    PrintedIsParsed(c, stray);
    AuthorityRoundTrip(c, NO_PARTS.(scheme := SomeUnlessEmpty(c.scheme)), stray);
  }

  /** A relative reference without authority whose path has a slash before any colon is read back too. */
  lemma RelativeRoundTrip(c: Components, stray: int)
    requires Legal(c) && c.scheme == "" && c.userInfo == "" && c.host == ""
    requires c.path != "" && !(|c.path| >= 2 && c.path[0] == '/' && c.path[1] == '/')
    requires Span(c.path, "/:") < |c.path| && c.path[Span(c.path, "/:")] == '/'
    ensures Join(c) == c.path + TailText(c)
    ensures ParseUri(Join(c), stray)
         == Some(NO_PARTS.(path := Some(c.path), query := SomeUnlessEmpty(c.query), fragment := SomeUnlessEmpty(c.fragment)))
    ensures WriteTo(ParseUri(Join(c), stray).value) == c.(port := 0)
  {
    var s := c.path + TailText(c);
    RelativeIsPrinted(c);
    TailBegins(c);
    RelativeHasNoScheme(c.path, TailText(c), stray);
    ResourceRoundTrip(c, NO_PARTS);
    LowerIsLowerCase("");
  }

  lemma RelativeIsPrinted(c: Components)
    requires Legal(c) && c.scheme == "" && c.host == ""
    ensures Join(c) == c.path + TailText(c)
  {
    LowerIsLowerCase(c.scheme);
    LowerIsLowerCase(c.host);
    assert Join(c) == "" + ("" + (c.path + TailText(c)));
  }

  lemma RelativeHasNoScheme(path: string, rest: string, stray: int)
    requires path != "" && !(|path| >= 2 && path[0] == '/' && path[1] == '/')
    requires Span(path, "/:") < |path| && path[Span(path, "/:")] == '/'
    requires rest == "" || rest[0] == '?' || rest[0] == '#'
    ensures ParseUri(path + rest, stray) == ParsePath(path + rest, NO_PARTS)
  {
    var s := path + rest;
    var k := Span(path, "/:");
    assert forall i :: 0 <= i < |path| ==> s[i] == path[i];
    assert rest != "" ==> s[|path|] == rest[0];
    SpanAt(s, "/:", k);
  }

  // ---------------------------------------------------------------------------
  // What the parser accepts is legal
  // ---------------------------------------------------------------------------

  predicate PartsLegal(p: Parts) {
    && (p.scheme.Some? ==> p.scheme.value != "" && IsAlpha(p.scheme.value[0]) && All(p.scheme.value, IsSchemeChar))
    && (p.userInfo.Some? ==> All(p.userInfo.value, IsUserInfoChar))
    && (p.host.Some? ==> All(p.host.value, IsAuthorityChar))
    && (p.path.Some? ==> p.path.value != "" && All(p.path.value, IsPathChar))
    && (p.query.Some? ==> All(p.query.value, IsQueryChar))
    && (p.fragment.Some? ==> All(p.fragment.value, IsFragmentChar))
  }

  lemma SplitUserIsLegal(parts: Parts, h: string)
    requires PartsLegal(parts) && All(h, IsAuthorityChar)
    ensures PartsLegal(SplitUser(parts, h))
  {
    var u := SpanWhile(h, IsUserInfoChar);
    assert All(h[..u], IsUserInfoChar);
    if u < |h| {
      assert All(h[u + 1..], IsAuthorityChar);
    }
  }

  lemma HostAndPortIsLegal(a: string, stray: int)
    requires a != "" && All(a, IsAuthorityChar) && stray <= INT_MAX
    ensures All(HostAndPort(a, stray).0, IsAuthorityChar) && HostAndPort(a, stray).1 <= INT_MAX
  {
  }

  lemma SplitIsLegal(parts: Parts, a: string, stray: int)
    requires PartsLegal(parts) && All(a, IsAuthorityChar) && parts.port <= INT_MAX && stray <= INT_MAX
    ensures PartsLegal(SplitAuthority(parts, a, stray)) && SplitAuthority(parts, a, stray).port <= INT_MAX
    ensures var r := SplitAuthority(parts, a, stray);
            r == parts.(userInfo := r.userInfo, host := r.host, port := r.port)
  {
    if a != "" {
      HostAndPortIsLegal(a, stray);
      var (h, port) := HostAndPort(a, stray);
      SplitUserIsLegal(parts.(port := port), h);
    }
  }

  lemma FragmentIsLegal(s: string, parts: Parts)
    requires PartsLegal(parts)
    ensures var r := ParseFragment(s, parts);
            r.Some? ==> PartsLegal(r.value) && r.value == parts.(fragment := r.value.fragment)
  {
  }

  lemma TailIsLegal(s: string, parts: Parts)
    requires PartsLegal(parts)
    ensures var r := ParseQuery(s, parts);
            r.Some? ==> PartsLegal(r.value) && r.value == parts.(query := r.value.query, fragment := r.value.fragment)
  {
    if s != "" && s[0] == '?' {
      var k := Span(s[1..], "#");
      var q := s[1..][..k];
      if All(q, IsQueryChar) {
        FragmentIsLegal(s[1..][k..], parts.(query := Some(q)));
      }
    } else {
      FragmentIsLegal(s, parts);
    }
  }

  lemma ResourceIsLegal(s: string, parts: Parts)
    requires PartsLegal(parts) && parts.path == None
    ensures ParsePath(s, parts).Some? ==> PartsLegal(ParsePath(s, parts).value)
    ensures ParsePath(s, parts).Some? ==>
              var r := ParsePath(s, parts).value; r == parts.(path := r.path, query := r.query, fragment := r.fragment)
    ensures ParsePath(s, parts).Some? && s != "" && s[0] in "/?#" ==>
              var r := ParsePath(s, parts).value; r.path.Some? ==> r.path.value[0] == '/'
    ensures ParsePath(s, parts).Some? && s == "" ==> ParsePath(s, parts).value.path == None
  {
    if s != "" && IsPathChar(s[0]) {
      var k := Span(s, "?#");
      assert s[0] !in "?#";
      if All(s[..k], IsPathChar) {
        TailIsLegal(s[k..], parts.(path := Some(s[..k])));
      }
    } else {
      TailIsLegal(s, parts);
    }
  }

  lemma HierarchyIsLegal(s: string, parts: Parts, stray: int)
    requires PartsLegal(parts) && parts == NO_PARTS.(scheme := parts.scheme) && stray <= INT_MAX
    ensures var r := ParseHierarchy(s, parts, stray);
            r.Some? ==> && PartsLegal(r.value) && r.value.port <= INT_MAX && r.value.scheme == parts.scheme
                        && (r.value.host.Some? && r.value.path.Some? ==> r.value.path.value[0] == '/')
  {
    if |s| >= 2 && s[0] == '/' && s[1] == '/' {
      var k := Span(s[2..], "/?#");
      if All(s[2..][..k], IsAuthorityChar) {
        SplitIsLegal(parts, s[2..][..k], stray);
        var rest := s[2..][k..];
        assert rest != "" ==> rest[0] == s[2..][k];
        ResourceIsLegal(rest, SplitAuthority(parts, s[2..][..k], stray));
      }
    } else {
      ResourceIsLegal(s, parts);
    }
  }

  lemma LowerKeepsClass(s: string, p: char -> bool)
    requires All(s, p) && (forall ch :: IsUpper(ch) && p(ch) ==> p(ToLower(ch)))
    ensures All(Lower(s), p)
  {
  }

  lemma UriPartsAreLegal(s: string, stray: int)
    requires ParseUri(s, stray).Some? && stray <= INT_MAX
    ensures var p := ParseUri(s, stray).value;
            PartsLegal(p) && p.port <= INT_MAX && (p.host.Some? && p.path.Some? ==> p.path.value[0] == '/')
  {
    var k := Span(s, "/:");
    if k < |s| && s[k] == ':' {
      SchemeIsRead(s, k, stray);
      SchemeIsLegal(s[..k]);
      HierarchyIsLegal(s[k + 1..], NO_PARTS.(scheme := Some(s[..k])), stray);
    } else {
      HierarchyIsLegal(s, NO_PARTS, stray);
    }
  }

  lemma SchemeIsRead(s: string, k: nat, stray: int)
    requires ParseUri(s, stray).Some? && k == Span(s, "/:") < |s| && s[k] == ':'
    ensures k > 0 && IsAlpha(s[..k][0]) && All(s[..k], IsSchemeChar)
    ensures ParseUri(s, stray) == ParseHierarchy(s[k + 1..], NO_PARTS.(scheme := Some(s[..k])), stray)
  {
  }

  lemma SchemeIsLegal(scheme: string)
    requires scheme != "" && IsAlpha(scheme[0]) && All(scheme, IsSchemeChar)
    ensures PartsLegal(NO_PARTS.(scheme := Some(scheme)))
  {
  }

  lemma WrittenIsLegal(p: Parts)
    requires PartsLegal(p) && p.port <= INT_MAX && (p.host.Some? && p.path.Some? ==> p.path.value[0] == '/')
    ensures var c := WriteTo(p); Legal(c) && c.path != "" && (c.host != "" ==> c.path[0] == '/')
  {
    LowerKeepsClass(OrEmpty(p.scheme), IsSchemeChar);
    LowerKeepsClass(OrEmpty(p.host), IsAuthorityChar);
    LowerIsLowerCase(OrEmpty(p.scheme));
    LowerIsLowerCase(OrEmpty(p.host));
  }

  lemma LegalIsCanonical(c: Components)
    requires IsLowerCase(c.scheme) && IsLowerCase(c.host) && (c.host != "" ==> c.path != "" && c.path[0] == '/')
    ensures Canonical(c) == c
  {
    LowerIsLowerCase(c.scheme);
    LowerIsLowerCase(c.host);
  }

  /** Accepted strings have legal components; those with a host have a rooted path. */
  lemma ParsedIsLegal(s: string, stray: int)
    requires ParseUri(s, stray).Some? && stray <= INT_MAX
    ensures var c := WriteTo(ParseUri(s, stray).value);
            && Legal(c) && c.path != "" && Canonical(c) == c
            && (c.host != "" ==> c.path[0] == '/')
  {
    UriPartsAreLegal(s, stray);
    WrittenIsLegal(ParseUri(s, stray).value);
    LegalIsCanonical(WriteTo(ParseUri(s, stray).value));
  }

  /** The text of a URI object with a host parses to the object again, exactly when its host is unambiguous. */
  lemma CanonicalFormIsStable(s: string, stray: int)
    requires FromString(s, stray).Some? && FromString(s, stray).value.host != "" && stray <= INT_MAX
    ensures var c := FromString(s, stray).value;
            FromString(Join(c), stray) == Some(c.(port := Positive(c.port))) <==> HostUnambiguous(c)
  {
    ParsedIsLegal(CString(s), stray);
    var c := FromString(s, stray).value;
    ParseUndoesPrint(c, stray);
    JoinHasNoNul(c);
    ParsedIsLegal(Join(c), stray);
  }

  lemma JoinHasNoNul(c: Components)
    requires Legal(c)
    ensures NUL !in Print(c)
  {
    AuthorityIsLegal(c);
    assert NUL !in SchemeText(c) && NUL !in HostText(c) && NUL !in c.path && NUL !in TailText(c);
  }
}
