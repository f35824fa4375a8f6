/** Downloading through a cache server: the host of the URL is swapped, and the original host becomes a query parameter. */
module HostSwap {
  import opened TaskQueues
  import opened Text
  import opened Uri
  import opened UriRoundTrip
  import opened Percent
  import opened Query
  import opened UriBuilders

  const ORIGIN := "cacheHostOrigin"
  const DEFAULT_PORT := 0

  /** The URLs the agent downloads from. */
  predicate ValidateUrl(url: string, stray: int) {
    var uri := FromString(url, stray);
    uri.Some? && (uri.value.scheme == "http" || uri.value.scheme == "https") && uri.value.host != ""
  }

  /** What is swapped in the components of a URL. */
  function Swapped(c: Components, newHost: string, port: nat): Components {
    c.(host := newHost, port := if port != DEFAULT_PORT then port else c.port, query := AppendPair(c.query, ORIGIN, c.host))
  }

  /** The new host, with what stands before and behind it in the URL, reads as a host and nothing else. */
  predicate NewHostIsClear(c: Components, newHost: string, port: nat) {
    && (c.userInfo == "" ==> !BeginsLikeUser(Lower(newHost)))
    && (port == 0 && c.port <= 0 ==> !EndsLikePort(Lower(newHost)))
  }

  /** A query that begins with the old one and in which a parameter names the original host. */
  predicate NamesOrigin(oldQuery: string, host: string, query: string) {
    && oldQuery <= query
    && "cacheHostOrigin" in SplitQuery(query) && Decode(SplitQuery(query)["cacheHostOrigin"]) == Some(host)
    && (SemicolonsDoNotMatter(oldQuery) ==>
          forall n :: n in SplitQuery(query) && n != "cacheHostOrigin" ==>
            n in SplitQuery(oldQuery) && SplitQuery(query)[n] == SplitQuery(oldQuery)[n])
    && (SemicolonsDoNotMatter(oldQuery) ==> forall n :: n in SplitQuery(oldQuery) ==> n in SplitQuery(query))
  }

  /**
   * d is the resource c at another host: scheme, path and fragment are the same, the query has only got the parameter.
   * User information, host and port are as they should be if and only if the new host is clear.
   */
  predicate IsSameResource(c: Components, d: Components, newHost: string, port: nat) {
    && d.scheme == c.scheme && d.path == c.path && d.fragment == c.fragment
    && NamesOrigin(c.query, c.host, d.query)
    && (d.host == Lower(newHost) <==> NewHostIsClear(c, newHost, port))
    && (NewHostIsClear(c, newHost, port) ==>
          && d.userInfo == c.userInfo
          && d.port == if port != 0 then port else if c.port > 0 then c.port else 0)
  }

  /** The URLs the agent downloads from, and hosts made of legal characters. */
  predicate Swappable(url: string, newHost: string, port: nat, stray: int) {
    ValidateUrl(url, stray) && stray <= INT_MAX && newHost != "" && All(newHost, IsAuthorityChar) && port <= INT_MAX
  }

  /** Whether the URL is one, the URL of the same resource at the new host. */
  method SwapUrlHostName(url: string, newHost: string, port: nat, stray: int) returns (r: Option<string>)
    ensures FromString(url, stray).None? ==> r == None
    ensures FromString(url, stray).Some? ==> r == ToText(Swapped(FromString(url, stray).value, newHost, port), stray)
    ensures Swappable(url, newHost, port, stray) ==>
              && r.Some? && FromString(r.value, stray).Some?
              && IsSameResource(FromString(url, stray).value, FromString(r.value, stray).value, newHost, port)
  {
    var parts := ParseFrom(CString(url), stray);
    if parts.None? {
      return None;
    }
    var components := new ComponentsObject(WriteTo(parts.value));
    var _ := components.JoinInPlace();
    var inputUri := components.m;
    var outputUri := new UriBuilder.FromUri(inputUri);
    outputUri.SetHost(newHost);
    if port != DEFAULT_PORT {
      outputUri.SetPort(port);
    }
    outputUri.AppendQueryPair(ORIGIN, inputUri.host);
    r := outputUri.ToString(stray);
    if Swappable(url, newHost, port, stray) {
      SwapPreservesTheResource(url, newHost, port, stray);
    }
  }

  lemma PairTextIsLegal(name: string, value: string)
    ensures All(PairText(name, value), IsQueryChar)
    ensures PairText(name, value)[0] != '&'
  {
    EncodedPair(name, value);
    EncodedClass(name, EncodesInQuery, IsQueryChar);
    EncodedClass(value, EncodesInQuery, IsQueryChar);
    AllConcat(EncodeQuery(name), "=", IsQueryChar);
    AllConcat(EncodeQuery(name) + "=", EncodeQuery(value), IsQueryChar);
  }

  /** An appended pair is legal, and only appended. */
  lemma AppendedIsLegal(q: string, name: string, value: string)
    requires All(q, IsQueryChar)
    ensures All(AppendPair(q, name, value), IsQueryChar) && q <= AppendPair(q, name, value)
  {
    var text := PairText(name, value);
    PairTextIsLegal(name, value);
    AllConcat(q, text, IsQueryChar);
    AllConcat(q, "&", IsQueryChar);
    AllConcat(q + "&", text, IsQueryChar);
  }

  lemma AuthorityIsBytes(host: string)
    requires All(host, IsAuthorityChar)
    ensures Bytes(host)
  {
  }

  /** The name of the parameter needs no encoding. */
  lemma OriginIsPlain()
    ensures EncodeQuery(ORIGIN) == ORIGIN
  {
    NothingToEncode(ORIGIN);
  }

  /** The parameter names the original host, whatever the query held before. */
  lemma OriginIsNamed(q: string, host: string)
    requires All(host, IsAuthorityChar)
    ensures var split := SplitQuery(AppendPair(q, ORIGIN, host));
            "cacheHostOrigin" in split && Decode(split["cacheHostOrigin"]) == Some(host)
  {
    AppendPairSplits(q, ORIGIN, host);
    OriginIsPlain();
    AuthorityIsBytes(host);
    QueryEncoding(host);
  }

  lemma ReplacedIsLegal(c: Components, host: string, port: int, query: string)
    requires Legal(c) && All(host, IsAuthorityChar) && IsLowerCase(host) && port <= INT_MAX && All(query, IsQueryChar)
    ensures Legal(c.(host := host, port := port, query := query))
  {
  }

  lemma HostIsLegal(host: string)
    requires All(host, IsAuthorityChar)
    ensures All(Lower(host), IsAuthorityChar) && IsLowerCase(Lower(host))
  {
    LowerIsLowerCase(host);
    LowerKeepsClass(host, IsAuthorityChar);
  }

  lemma SwappedIsLegal(c: Components, newHost: string, port: nat)
    requires Legal(c) && All(newHost, IsAuthorityChar) && port <= INT_MAX
    ensures Legal(Swapped(c, Lower(newHost), port))
  {
    AppendedIsLegal(c.query, ORIGIN, c.host);
    HostIsLegal(newHost);
    ReplacedIsLegal(c, Lower(newHost), if port != DEFAULT_PORT then port else c.port, AppendPair(c.query, ORIGIN, c.host));
  }

  lemma LowerTwice(s: string)
    ensures Lower(Lower(s)) == Lower(s)
  {
    LowerIsLowerCase(s);
    LowerIsLowerCase(Lower(s));
  }

  lemma JoinLowersTheHost(c: Components, newHost: string, port: nat)
    ensures Join(Swapped(c, newHost, port)) == Join(Swapped(c, Lower(newHost), port))
  {
    LowerTwice(newHost);
    assert Canonical(Swapped(c, newHost, port)) == Canonical(Swapped(c, Lower(newHost), port));
  }

  /** The text of the swapped components is a URI, and reads back as them if the host is unambiguous. */
  lemma SwappedIsPrinted(c: Components, newHost: string, port: nat, stray: int)
    requires Legal(c) && Canonical(c) == c && c.host != "" && c.path != "" && c.path[0] == '/' && stray <= INT_MAX
    requires newHost != "" && All(newHost, IsAuthorityChar) && port <= INT_MAX
    ensures var want := Swapped(c, Lower(newHost), port); var text := ToText(Swapped(c, newHost, port), stray);
            && text == Some(Join(want)) && FromString(text.value, stray).Some?
            && (HostUnambiguous(want) ==> FromString(text.value, stray) == Some(want.(port := Positive(want.port))))
            && var d := FromString(text.value, stray).value;
               && d.scheme == want.scheme && d.path == want.path && d.query == want.query && d.fragment == want.fragment
               && (d.host == want.host <==> HostUnambiguous(want))
  {
    var want := Swapped(c, Lower(newHost), port);
    SwappedIsLegal(c, newHost, port);
    JoinLowersTheHost(c, newHost, port);
    ParseUndoesPrint(want, stray);
    JoinHasNoNul(want);
    ParsedIsLegal(Join(want), stray);
  }

  lemma QueryNamesOrigin(q: string, host: string)
    requires All(q, IsQueryChar) && All(host, IsAuthorityChar)
    ensures NamesOrigin(q, host, AppendPair(q, ORIGIN, host))
  {
    AppendedIsLegal(q, ORIGIN, host);
    OriginIsNamed(q, host);
    OriginIsPlain();
    AppendPairSplits(q, ORIGIN, host);
    SameSplitExactly(q);
  }

  /**
   * For every accepted URL and every non-empty host of legal characters the swap gives the URL of the same resource, at
   * the new host exactly when that one is clear; then it is a URL to download from.
   */
  lemma SwapPreservesTheResource(url: string, newHost: string, port: nat, stray: int)
    requires Swappable(url, newHost, port, stray)
    ensures var c := FromString(url, stray).value; var text := ToText(Swapped(c, newHost, port), stray);
            && text.Some? && FromString(text.value, stray).Some?
            && IsSameResource(c, FromString(text.value, stray).value, newHost, port)
            && (NewHostIsClear(c, newHost, port) ==> ValidateUrl(text.value, stray))
  {
    var c := FromString(url, stray).value;
    ParsedIsLegal(CString(url), stray);
    SwappedIsPrinted(c, newHost, port, stray);
    QueryNamesOrigin(c.query, c.host);
  }
}
