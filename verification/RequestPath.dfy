/** From the SDK to the agent: what was called arrives, however the request is split on its way. */
module RequestPath {
  import opened TaskQueues
  import opened Text
  import opened Uri
  import opened UriRoundTrip
  import opened Percent
  import opened Query
  import opened DotSegments
  import opened UriBuilders
  import opened HttpMessages
  import opened HttpParsers
  import opened Messages
  import opened RestApi

  // ---------------------------------------------------------------------------
  // The SDK's end
  // ---------------------------------------------------------------------------

  type Args = seq<(Param, string)>

  function Named(args: Args): (pairs: seq<(string, string)>)
    ensures |pairs| == |args|
  {
    if args == [] then []
    else Named(args[..|args| - 1]) + [(ParamName(args[|args| - 1].0), args[|args| - 1].1)]
  }

  const DOWNLOAD := "download"

  /** The URL of a call, as components. */
  function CallUrl(api: ApiMethod, args: Args): Components {
    Components("", "", "", 0, DOWNLOAD + "/" + ApiName(api), BuildQuery(Named(args)), "")
  }

  function CreateArgs(uri: string, path: string): Args {
    [(UriParam, uri)] + if path == "" then [] else [(DownloadFilePath, path)]
  }

  function CallText(api: ApiMethod, args: Args): string {
    RequestText(ApiVerb(api), Join(CallUrl(api, args)))
  }

  /** A builder made from the word the URLs begin with, and the word for the operation. */
  method NewBuilder(word: string, operation: string, stray: int) returns (builder: UriBuilder)
    requires IsWord(word) && IsWord(operation)
    ensures fresh(builder) && builder.m == Components("", "", "", 0, word + "/" + operation, "", "")
  {
    WordIsPath(word, stray);
    var parts := ParseFrom(word, stray);
    var uri := new ComponentsObject(WriteTo(parts.value));
    var _ := uri.JoinInPlace();
    builder := new UriBuilder.FromUri(uri.m);
    WordsAreJoined(word, operation);
    builder.AppendPath(operation);
  }

  lemma WordsAreJoined(a: string, b: string)
    requires IsWord(a) && IsWord(b)
    ensures AppendToPath(a, b) == a + "/" + b
  {
    assert IsLower(a[0]) && IsLower(a[|a| - 1]) && IsLower(b[0]);
  }

  /** The URL of a create request, taken from the builder that holds it. */
  method Send(api: ApiMethod, args: Args, builder: UriBuilder, stray: int) returns (text: string)
    requires builder.m == CallUrl(api, args)
    ensures text == CallText(api, args)
  {
    CallUrlIsPrinted(api, args, stray);
    var url := builder.ToString(stray);
    text := Serialize(ApiVerb(api), url.value);
  }

  method CreateRequest(uri: string, downloadFilePath: string, stray: int) returns (text: string)
    ensures text == CallText(Create, CreateArgs(uri, downloadFilePath))
  {
    ApiNameIsWord(Create);
    var builder := NewBuilder(DOWNLOAD, "create", stray);
    builder.AppendQueryPair("Uri", uri);
    if downloadFilePath != "" {
      builder.AppendQueryPair("DownloadFilePath", downloadFilePath);
    }
    CreateQuery(uri, downloadFilePath);
    text := Send(Create, CreateArgs(uri, downloadFilePath), builder, stray);
  }

  lemma CreateQuery(uri: string, path: string)
    ensures BuildQuery(Named(CreateArgs(uri, path)))
         == if path == "" then AppendPair("", "Uri", uri) else AppendPair(AppendPair("", "Uri", uri), "DownloadFilePath", path)
  {
    OneArg(UriParam, uri);
    if path == "" {
      assert CreateArgs(uri, path) == [(UriParam, uri)];
    } else {
      OneMore([(UriParam, uri)], DownloadFilePath, path);
    }
  }

  lemma OneArg(p: Param, v: string)
    ensures BuildQuery(Named([(p, v)])) == AppendPair("", ParamName(p), v)
  {
    OneMore([], p, v);
    assert [] + [(p, v)] == [(p, v)];
  }

  /** Starting, pausing, finalizing, aborting and asking for the status name the download by its id. */
  method OperationRequest(api: ApiMethod, id: string, stray: int) returns (text: string)
    ensures text == CallText(api, [(Id, id)])
  {
    ApiNameIsWord(api);
    var builder := NewBuilder(DOWNLOAD, ApiName(api), stray);
    builder.AppendQueryPair("Id", id);
    OneArg(Id, id);
    text := Send(api, [(Id, id)], builder, stray);
  }

  lemma OneMore(args: Args, p: Param, v: string)
    ensures BuildQuery(Named(args + [(p, v)])) == AppendPair(BuildQuery(Named(args)), ParamName(p), v)
  {
    var more := args + [(p, v)];
    assert more[..|more| - 1] == args;
    var pairs := Named(more);
    assert pairs[..|pairs| - 1] == Named(args);
  }

  // ---------------------------------------------------------------------------
  // The URL
  // ---------------------------------------------------------------------------

  predicate IsWord(w: string) {
    Some1(w, IsLower)
  }

  lemma ApiNameIsWord(api: ApiMethod)
    ensures IsWord(ApiName(api))
  {
  }

  lemma WordIsPath(w: string, stray: int)
    requires IsWord(w)
    ensures NUL !in w && CString(w) == w
    ensures ParseUri(w, stray) == Some(NO_PARTS.(path := Some(w)))
    ensures Canonical(WriteTo(NO_PARTS.(path := Some(w)))) == Components("", "", "", 0, w, "", "")
  {
    assert forall i :: 0 <= i < |w| ==> IsLower(w[i]);
    SpanAt(w, "/:", |w|);
    SpanAt(w, "?#", |w|);
    assert w[..|w|] == w && w[|w|..] == "";
  }

  lemma PathIsPlain(a: string, b: string)
    requires IsWord(a) && IsWord(b)
    ensures var path := a + "/" + b;
            && All(path, IsPathChar) && All(path, IsUrlChar) && path[0] == a[0]
            && Span(path, "/:") == |a| < |path| && path[|a|] == '/'
  {
    var path := a + "/" + b;
    assert forall i :: 0 <= i < |path| ==> path[i] == '/' || IsLower(path[i]);
    assert forall i :: 0 <= i < |a| ==> path[i] == a[i] && IsLower(a[i]);
    SpanAt(path, "/:", |a|);
  }

  lemma {:induction false} BuiltQueryIsPlain(pairs: seq<(string, string)>)
    ensures All(BuildQuery(pairs), IsUrlChar) && All(BuildQuery(pairs), IsQueryChar)
  {
    if pairs != [] {
      var front := pairs[..|pairs| - 1];
      var last := pairs[|pairs| - 1];
      BuiltQueryIsPlain(front);
      PairIsPlain(last.0, last.1, IsUrlChar);
      PairIsPlain(last.0, last.1, IsQueryChar);
      AppendedIsPlain(BuildQuery(front), PairText(last.0, last.1), IsUrlChar);
      AppendedIsPlain(BuildQuery(front), PairText(last.0, last.1), IsQueryChar);
    }
  }

  ghost predicate HoldsEncoding(p: char -> bool) {
    && (forall c :: !EncodesInQuery(c) ==> p(c))
    && p('%') && p('=') && p('&') && forall n :: 0 <= n < 16 ==> p(HEX[n])
  }

  lemma PairIsPlain(name: string, value: string, p: char -> bool)
    requires HoldsEncoding(p)
    ensures All(PairText(name, value), p)
  {
    EncodedClass(name, EncodesInQuery, p);
    EncodedClass(value, EncodesInQuery, p);
    AllConcat(EncodeQuery(name), "=", p);
    AllConcat(EncodeQuery(name) + "=", EncodeQuery(value), p);
  }

  lemma AppendedIsPlain(q: string, text: string, p: char -> bool)
    requires HoldsEncoding(p) && All(q, p) && All(text, p) && text != ""
    ensures All(AppendText(q, text), p)
  {
    AllConcat(q, text, p);
    AllConcat(q, "&", p);
    AllConcat(q + "&", text, p);
    if q != "" {
      AllConcat(q[..|q| - 1], text, p);
    }
  }

  lemma CallUrlIsLegal(api: ApiMethod, args: Args)
    ensures Legal(CallUrl(api, args))
  {
    ApiNameIsWord(api);
    PathIsPlain(DOWNLOAD, ApiName(api));
    BuiltQueryIsPlain(Named(args));
  }

  /** The URL of a call is a relative reference; its text is one, and reads back as it was. */
  lemma CallUrlIsPrinted(api: ApiMethod, args: Args, stray: int)
    ensures var c := CallUrl(api, args);
            && ToText(c, stray) == Some(Join(c)) && NUL !in Join(c)
            && FromString(Join(c), stray) == Some(c) && Join(c) == c.path + TailText(c)
  {
    var c := CallUrl(api, args);
    CallUrlIsLegal(api, args);
    ApiNameIsWord(api);
    PathIsPlain(DOWNLOAD, ApiName(api));
    assert c.path[0] == 'd';
    RelativeRoundTrip(c, stray);
    LowerIsLowerCase(c.scheme);
    LowerIsLowerCase(c.host);
    JoinHasNoNul(c);
    assert Canonical(c) == c;
  }

  lemma CallUrlIsUrl(api: ApiMethod, args: Args)
    ensures var c := CallUrl(api, args); var url := c.path + TailText(c);
            Some1(url, IsUrlChar) && !IsDigit(url[0])
  {
    var c := CallUrl(api, args);
    ApiNameIsWord(api);
    PathIsPlain(DOWNLOAD, ApiName(api));
    BuiltQueryIsPlain(Named(args));
    AllConcat("?", c.query, IsUrlChar);
    AllConcat(c.path, TailText(c), IsUrlChar);
    assert (c.path + TailText(c))[0] == c.path[0] == 'd';
  }

  // ---------------------------------------------------------------------------
  // The agent's end
  // ---------------------------------------------------------------------------

  lemma {:induction false} DecodePlain(s: string)
    requires forall i :: 0 <= i < |s| ==> s[i] != '%' && s[i] as int < 128
    ensures Decode(s) == Some(s)
  {
    if s != "" {
      DecodePlain(s[1..]);
      assert [s[0]] + s[1..] == s;
    }
  }

  lemma WordIsSegment(w: string)
    requires IsWord(w)
    ensures IsSegment(w) && forall i :: 0 <= i < |w| ==> w[i] != '%' && w[i] as int < 128
  {
    assert forall i :: 0 <= i < |w| ==> IsLower(w[i]);
  }

  lemma PathIsDecoded(a: string, b: string)
    requires IsWord(a) && IsWord(b)
    ensures Decode(a + "/" + b) == Some(a + "/" + b)
  {
    WordIsSegment(a);
    WordIsSegment(b);
    DecodePlain(a + "/" + b);
  }

  lemma PathIsSplit(a: string, b: string)
    requires IsWord(a) && IsWord(b)
    ensures SplitPath(a + "/" + b) == [a, b]
  {
    WordIsSegment(a);
    WordIsSegment(b);
    SplitAtSlash(a, b);
    SplitOnly(b);
    assert a + "/" + b == a + ("/" + b);
  }

  lemma WordIsLower(w: string)
    requires IsWord(w)
    ensures Lower(w) == w
  {
    assert forall i :: 0 <= i < |w| ==> IsLower(w[i]);
    LowerIsLowerCase(w);
  }

  lemma ApiIsFound(api: ApiMethod)
    ensures LookupApiFrom(ApiName(api), 0) == Some(api)
  {
    forall a: ApiMethod | true ensures Lower(ApiName(a)) == ApiName(a) {
      ApiNameIsWord(a);
      WordIsLower(ApiName(a));
    }
  }

  /** The agent sees the method that was called. */
  lemma MethodArrives(api: ApiMethod, args: Args)
    ensures MethodOf(EMPTY_PACKET.(verb := ApiVerb(api), url := CallUrl(api, args))) == Some(api)
  {
    ApiNameIsWord(api);
    PathIsDecoded(DOWNLOAD, ApiName(api));
    PathIsSplit(DOWNLOAD, ApiName(api));
    ApiIsFound(api);
    MethodIsFound(EMPTY_PACKET.(verb := ApiVerb(api), url := CallUrl(api, args)), DOWNLOAD, api);
  }

  lemma MethodIsFound(request: Packet, word: string, api: ApiMethod)
    requires Decode(request.url.path) == Some(request.url.path) && SplitPath(request.url.path) == [word, ApiName(api)]
    requires EqualNoCase(word, "download") && LookupApiFrom(ApiName(api), 0) == Some(api) && request.verb == ApiVerb(api)
    ensures MethodOf(request) == Some(api)
  {
  }

  /** The later-wins map of the arguments. */
  function Given(args: Args): map<Param, string> {
    if args == [] then map[] else Given(args[..|args| - 1])[args[|args| - 1].0 := args[|args| - 1].1]
  }

  predicate ArgsAreBytes(args: Args) {
    forall i :: 0 <= i < |args| ==> Bytes(args[i].1)
  }

  lemma ParamNameIsWord(p: Param)
    ensures All(ParamName(p), IsAlpha)
  {
  }

  lemma LettersArePlain(w: string)
    requires All(w, IsAlpha)
    ensures EncodeQuery(w) == w && CString(w) == w
  {
    assert forall i :: 0 <= i < |w| ==> IsAlpha(w[i]);
    NothingToEncode(w);
  }

  lemma ParamNameIsPlain(p: Param)
    ensures EncodeQuery(ParamName(p)) == ParamName(p) && CString(ParamName(p)) == ParamName(p)
  {
    ParamNameIsWord(p);
    LettersArePlain(ParamName(p));
  }

  lemma {:induction false} FirstIsFound(name: string, i: nat, k: nat)
    requires i <= k < |KNOWN_PARAMS| && EqualNoCase(ParamName(KNOWN_PARAMS[k]), name)
    requires forall j :: i <= j < k ==> !EqualNoCase(ParamName(KNOWN_PARAMS[j]), name)
    ensures LookupFrom(name, i) == Some(KNOWN_PARAMS[k])
    decreases k - i
  {
    if i < k {
      FirstIsFound(name, i + 1, k);
    }
  }

  lemma ParamIsFound(p: Param)
    ensures LookupParam(ParamName(p)) == Some(p)
  {
    var k := match p case Id => 0 case UriParam => 1 case DownloadFilePath => 2 case NoProgressTimeoutSeconds => 3 case PropertyKey => 4;
    forall j | 0 <= j <= k ensures EqualNoCase(ParamName(KNOWN_PARAMS[j]), ParamName(p)) <==> j == k {
      ParamNamesDiffer(p, KNOWN_PARAMS[j]);
    }
    FirstIsFound(ParamName(p), 0, k);
  }

  lemma ParamNamesDiffer(p: Param, q: Param)
    ensures EqualNoCase(ParamName(q), ParamName(p)) <==> q == p
  {
    ParamNameIsPlain(p);
    ParamNameIsPlain(q);
    assert |ParamName(p)| == |ParamName(q)| ==> p == q;
  }

  lemma NamesDiffer(p: Param, q: Param)
    ensures ParamName(p) == ParamName(q) ==> p == q
  {
  }

  /** What splitting the query of a call gives: the name of every argument, with the encoded last value. */
  ghost predicate IsSplitOf(split: map<string, string>, given: map<Param, string>) {
    && (forall p :: p in given ==> ParamName(p) in split && split[ParamName(p)] == EncodeQuery(given[p]))
    && (forall k :: k in split ==> exists p :: p in given && k == ParamName(p))
  }

  lemma SplitOneMore(split: map<string, string>, given: map<Param, string>, p: Param, v: string)
    requires IsSplitOf(split, given)
    ensures IsSplitOf(split[ParamName(p) := EncodeQuery(v)], given[p := v])
  {
    var s, g := split[ParamName(p) := EncodeQuery(v)], given[p := v];
    forall q | q in g ensures ParamName(q) in s && s[ParamName(q)] == EncodeQuery(g[q]) {
      NamesDiffer(p, q);
    }
    forall k | k in s ensures exists q :: q in g && k == ParamName(q) {
      if k == ParamName(p) {
        assert p in g;
      } else {
        var q :| q in given && k == ParamName(q);
        assert q in g;
      }
    }
  }

  lemma {:induction false} CallQuerySplits(args: Args)
    ensures IsSplitOf(EncodedLastWins(Named(args)), Given(args))
  {
    if args != [] {
      var front := args[..|args| - 1];
      var last := args[|args| - 1];
      CallQuerySplits(front);
      ParamNameIsPlain(last.0);
      var pairs := Named(args);
      assert pairs[..|pairs| - 1] == Named(front);
      SplitOneMore(EncodedLastWins(Named(front)), Given(front), last.0, last.1);
    }
  }

  lemma {:induction false} GivenIsBytes(args: Args)
    requires ArgsAreBytes(args)
    ensures forall p :: p in Given(args) ==> Bytes(Given(args)[p])
  {
    if args != [] {
      GivenIsBytes(args[..|args| - 1]);
    }
  }

  /** The items of a query that was built from arguments. */
  lemma ItemsOfSplit(split: map<string, string>, given: map<Param, string>)
    requires IsSplitOf(split, given) && forall p :: p in given ==> Bytes(given[p])
    ensures forall p :: p in given ==> ParamName(p) in split && Item(split, ParamName(p)) == Some((p, given[p]))
    ensures forall k :: k in split ==> Item(split, k).Some? && Item(split, k).value.0 in given && k == ParamName(Item(split, k).value.0)
  {
    forall p | p in given ensures ParamName(p) in split && Item(split, ParamName(p)) == Some((p, given[p])) {
      ParamIsFound(p);
      QueryEncoding(given[p]);
    }
    forall k | k in split
      ensures Item(split, k).Some? && Item(split, k).value.0 in given && k == ParamName(Item(split, k).value.0)
    {
      var p :| p in given && k == ParamName(p);
      assert Item(split, ParamName(p)) == Some((p, given[p]));
    }
  }

  ghost predicate AreGiven(items: map<string, Option<(Param, string)>>, given: map<Param, string>) {
    && (forall p :: p in given ==> ParamName(p) in items && items[ParamName(p)] == Some((p, given[p])))
    && (forall k :: k in items ==> items[k].Some? && items[k].value.0 in given && k == ParamName(items[k].value.0))
  }

  lemma ItemsAreGiven(args: Args)
    requires ArgsAreBytes(args)
    ensures AreGiven(Items(SplitQuery(BuildQuery(Named(args)))), Given(args))
  {
    SplitUndoesBuild(Named(args));
    CallQuerySplits(args);
    GivenIsBytes(args);
    ItemsOfSplit(SplitQuery(BuildQuery(Named(args))), Given(args));
  }

  /** Items that are each under the name of their parameter make the data they give. */
  lemma GivenAreHeld(items: map<string, Option<(Param, string)>>, given: map<Param, string>, data: map<Param, string>)
    requires AreGiven(items, given) && HoldsData(items, items.Keys, data)
    ensures data == given
  {
    forall p | p in data ensures p in given && given[p] == data[p] {
      var k :| LastKeyFor(items, p, k, items.Keys) && items[k].value.1 == data[p];
      assert k == ParamName(p);
    }
    forall p | p in given ensures p in data {
      assert ParamName(p) in items.Keys;
    }
  }

  /** The agent's query data are exactly the arguments. */
  lemma DataArrive(args: Args, data: Option<map<Param, string>>)
    requires ArgsAreBytes(args) && QueryHolds(BuildQuery(Named(args)), data)
    ensures data == Some(Given(args))
  {
    ItemsAreGiven(args);
    if data.Some? {
      GivenAreHeld(Items(SplitQuery(BuildQuery(Named(args)))), Given(args), data.value);
    }
  }

  // ---------------------------------------------------------------------------
  // From end to end
  // ---------------------------------------------------------------------------

  /**
   * For every call, all byte strings as arguments, and every way the request may be split: if it fits into the buffer,
   * the agent reads a complete message, sees the method that was called, and decodes exactly the arguments. If it does
   * not fit, it is rejected.
   */
  lemma CallArrives(api: ApiMethod, args: Args, chunks: seq<string>, stray: int)
    requires ArgsAreBytes(args) && Flatten(chunks) == CallText(api, args)
    ensures var packet := EMPTY_PACKET.(verb := ApiVerb(api), url := CallUrl(api, args));
            && FeedAllBounded(chunks, stray)
               == (if |CallText(api, args)| <= CAPACITY then Parsed(Complete, packet, "") else Rejected)
            && MethodOf(packet) == Some(api)
            && forall data :: QueryHolds(packet.url.query, data) ==> data == Some(Given(args))
  {
    CallUrlIsPrinted(api, args, stray);
    CallUrlIsUrl(api, args);
    VerbIsWord(api);
    RequestIsRead(ApiVerb(api), Join(CallUrl(api, args)), CallUrl(api, args), stray);
    ChunksMakeNoDifference(chunks, stray);
    CapacityIsTheOnlyBound(chunks, stray);
    MethodArrives(api, args);
    forall data | QueryHolds(BuildQuery(Named(args)), data) ensures data == Some(Given(args)) {
      DataArrive(args, data);
    }
  }

  lemma VerbIsWord(api: ApiMethod)
    ensures Some1(ApiVerb(api), IsAlpha)
  {
  }

  /** A create request brings the URI and the path, and no path if there is none. */
  lemma CreateArrives(uri: string, path: string, chunks: seq<string>, stray: int)
    requires Bytes(uri) && Bytes(path) && Flatten(chunks) == CallText(Create, CreateArgs(uri, path))
    requires |CallText(Create, CreateArgs(uri, path))| <= CAPACITY
    ensures var o := FeedAllBounded(chunks, stray);
            && o.Parsed? && o.state == Complete && MethodOf(o.packet) == Some(Create)
            && forall data :: QueryHolds(o.packet.url.query, data) ==>
                 data == Some(if path == "" then map[UriParam := uri] else map[UriParam := uri, DownloadFilePath := path])
  {
    var args := CreateArgs(uri, path);
    CallArrives(Create, args, chunks, stray);
    var first := [(UriParam, uri)];
    assert first[..0] == [];
    assert Given(first) == map[UriParam := uri];
    if path != "" {
      assert args == [(UriParam, uri), (DownloadFilePath, path)];
      assert args[..1] == first;
    } else {
      assert args == first;
    }
  }

  /** The agent's parser object, fed a call, gives its method and its arguments. */
  method ReceiveCall(api: ApiMethod, args: Args, chunks: seq<string>, stray: int)
    returns (ok: bool, called: Option<ApiMethod>, known: bool, data: map<Param, string>)
    requires ArgsAreBytes(args) && Flatten(chunks) == CallText(api, args)
    ensures ok <==> |CallText(api, args)| <= CAPACITY
    ensures ok ==> called == Some(api) && known && data == Given(args)
  {
    CallArrives(api, args, chunks, stray);
    var parser;
    ok, parser := ReadAll(chunks, stray);
    called, known, data := None, false, map[];
    if ok {
      var request := new RestApiParser(parser.packet);
      called := request.Method();
      var value;
      known, value := request.QueryStringParam(Id);
      data := request.queryData;
      assert QueryHolds(BuildQuery(Named(args)), if known then Some(data) else None);
      DataArrive(args, if known then Some(data) else None);
    }
  }
}
