/** The agent's end of a request: which operation is called, and with which parameters. */
module RestApi {
  import opened TaskQueues
  import opened Text
  import opened Uri
  import opened Percent
  import opened Query
  import opened DotSegments
  import opened HttpMessages

  datatype ApiMethod = Create | Enumerate | Start | Pause | Finalize | Abort | GetStatus | GetProperty | SetProperty

  function ApiName(api: ApiMethod): string {
    match api
    case Create => "create"
    case Enumerate => "enumerate"
    case Start => "start"
    case Pause => "pause"
    case Finalize => "finalize"
    case Abort => "abort"
    case GetStatus => "getstatus"
    case GetProperty => "getproperty"
    case SetProperty => "setproperty"
  }

  function ApiVerb(api: ApiMethod): string {
    if api in {Enumerate, GetStatus, GetProperty} then "GET" else "POST"
  }

  const API_METHODS: seq<ApiMethod> := [Create, Enumerate, Start, Pause, Finalize, Abort, GetStatus, GetProperty, SetProperty]

  datatype Param = Id | UriParam | DownloadFilePath | NoProgressTimeoutSeconds | PropertyKey

  function ParamName(p: Param): string {
    match p
    case Id => "Id"
    case UriParam => "Uri"
    case DownloadFilePath => "DownloadFilePath"
    case NoProgressTimeoutSeconds => "NoProgressTimeoutSeconds"
    case PropertyKey => "PropertyKey"
  }

  const KNOWN_PARAMS: seq<Param> := [Id, UriParam, DownloadFilePath, NoProgressTimeoutSeconds, PropertyKey]

  // ---------------------------------------------------------------------------
  // Lookup without regard to case
  // ---------------------------------------------------------------------------

  /** Equality of C strings without regard to case. */
  predicate EqualNoCase(a: string, b: string) {
    Lower(CString(a)) == Lower(CString(b))
  }

  function LookupFrom(name: string, i: nat): (r: Option<Param>)
    requires i <= |KNOWN_PARAMS|
    decreases |KNOWN_PARAMS| - i
  {
    if i == |KNOWN_PARAMS| then None
    else if EqualNoCase(ParamName(KNOWN_PARAMS[i]), name) then Some(KNOWN_PARAMS[i])
    else LookupFrom(name, i + 1)
  }

  /** The first known parameter of that name. */
  function LookupParam(name: string): Option<Param> {
    LookupFrom(name, 0)
  }

  function LookupApiFrom(name: string, i: nat): (r: Option<ApiMethod>)
    requires i <= |API_METHODS|
    decreases |API_METHODS| - i
  {
    if i == |API_METHODS| then None
    else if Lower(ApiName(API_METHODS[i])) == Lower(name) then Some(API_METHODS[i])
    else LookupApiFrom(name, i + 1)
  }

  /** The method a request asks for, or None for an unsupported request. */
  function MethodOf(request: Packet): Option<ApiMethod> {
    match Decode(request.url.path)
    case None => None
    case Some(path) =>
      var paths := SplitPath(path);
      if |paths| != 2 || !EqualNoCase(paths[0], "download") then None
      else
        match LookupApiFrom(paths[1], 0)
        case None => None
        case Some(api) => if request.verb == ApiVerb(api) then Some(api) else None
  }

  // ---------------------------------------------------------------------------
  // What is supported, word for word
  // ---------------------------------------------------------------------------

  /** The operation by its name in lower case and its verb. */
  predicate IsSupported(name: string, verb: string, api: ApiMethod) {
    || (name == "create" && verb == "POST" && api == Create)
    || (name == "enumerate" && verb == "GET" && api == Enumerate)
    || (name == "start" && verb == "POST" && api == Start)
    || (name == "pause" && verb == "POST" && api == Pause)
    || (name == "finalize" && verb == "POST" && api == Finalize)
    || (name == "abort" && verb == "POST" && api == Abort)
    || (name == "getstatus" && verb == "GET" && api == GetStatus)
    || (name == "getproperty" && verb == "GET" && api == GetProperty)
    || (name == "setproperty" && verb == "POST" && api == SetProperty)
  }

  /** The parameter by its name in lower case. */
  predicate IsKnown(name: string, p: Param) {
    || (name == "id" && p == Id)
    || (name == "uri" && p == UriParam)
    || (name == "downloadfilepath" && p == DownloadFilePath)
    || (name == "noprogresstimeoutseconds" && p == NoProgressTimeoutSeconds)
    || (name == "propertykey" && p == PropertyKey)
  }

  lemma ApiNameIsLower(api: ApiMethod)
    ensures Lower(ApiName(api)) == ApiName(api)
  {
    forall i | 0 <= i < |ApiName(api)| ensures ToLower(ApiName(api)[i]) == ApiName(api)[i] {
    }
  }

  lemma ApiIsSupported(api: ApiMethod, name: string, verb: string)
    ensures IsSupported(name, verb, api) <==> name == ApiName(api) && verb == ApiVerb(api)
  {
  }

  lemma {:induction false} ApiIsLookedUp(name: string, i: nat, api: ApiMethod)
    requires i <= |API_METHODS|
    ensures LookupApiFrom(name, i) == Some(api) <==> Lower(name) == ApiName(api) && api in API_METHODS[i..]
    decreases |API_METHODS| - i
  {
    if i < |API_METHODS| {
      ApiIsLookedUp(name, i + 1, api);
      ApiNameIsLower(API_METHODS[i]);
      NamesAreDistinct(API_METHODS[i], api);
      Uncons(API_METHODS, i);
    }
  }

  lemma NamesAreDistinct(a: ApiMethod, b: ApiMethod)
    ensures ApiName(a) == ApiName(b) ==> a == b
  {
    ApiIsSupported(a, ApiName(a), ApiVerb(a));
    ApiIsSupported(b, ApiName(b), ApiVerb(b));
  }

  /** Exactly which requests ask for which operation. */
  lemma SupportedExactly(request: Packet, api: ApiMethod)
    ensures MethodOf(request) == Some(api) <==>
            && Decode(request.url.path).Some?
            && var paths := SplitPath(Decode(request.url.path).value);
               |paths| == 2 && Lower(CString(paths[0])) == "download" && IsSupported(Lower(paths[1]), request.verb, api)
  {
    assert Lower(CString("download")) == "download" by {
      assert NUL !in "download";
      LowerIsLowerCase("download");
    }
    if Decode(request.url.path).Some? && |SplitPath(Decode(request.url.path).value)| == 2 {
      var name := SplitPath(Decode(request.url.path).value)[1];
      ApiIsLookedUp(name, 0, api);
      ApiIsSupported(api, Lower(name), request.verb);
      assert api in API_METHODS[0..] by {
        assert API_METHODS[0..] == API_METHODS;
        EveryApiIsListed(api);
      }
    }
  }

  lemma EveryApiIsListed(api: ApiMethod)
    ensures api in API_METHODS
  {
    var k := match api
      case Create => 0 case Enumerate => 1 case Start => 2 case Pause => 3 case Finalize => 4 case Abort => 5
      case GetStatus => 6 case GetProperty => 7 case SetProperty => 8;
    assert API_METHODS[k] == api;
  }

  lemma LowerConcat(a: string, b: string)
    ensures Lower(a + b) == Lower(a) + Lower(b)
  {
  }

  /** The name of a parameter, as it is compared. */
  function Key(p: Param): string {
    Lower(CString(ParamName(p)))
  }

  lemma PlainKey(p: Param, lower: string)
    requires NUL !in ParamName(p) && Lower(ParamName(p)) == lower
    ensures Key(p) == lower
  {
  }

  lemma ShortKeys()
    ensures Key(Id) == "id" && Key(UriParam) == "uri" && Key(PropertyKey) == "propertykey"
  {
    PlainKey(Id, "id");
    PlainKey(UriParam, "uri");
    PlainKey(PropertyKey, "propertykey");
  }

  lemma PathKey()
    ensures Key(DownloadFilePath) == "downloadfilepath"
  {
    assert Lower("Download") == "download" && Lower("FilePath") == "filepath";
    LowerConcat("Download", "FilePath");
    assert "Download" + "FilePath" == "DownloadFilePath" && "download" + "filepath" == "downloadfilepath";
    PlainKey(DownloadFilePath, "downloadfilepath");
  }

  lemma LowerTimeout()
    ensures Lower("NoProgressTimeoutSeconds") == "noprogresstimeoutseconds"
  {
    assert Lower("NoProgress") == "noprogress" && Lower("TimeoutSeconds") == "timeoutseconds";
    LowerConcat("NoProgress", "TimeoutSeconds");
    assert "NoProgress" + "TimeoutSeconds" == "NoProgressTimeoutSeconds";
    assert "noprogress" + "timeoutseconds" == "noprogresstimeoutseconds";
  }

  lemma TimeoutKey()
    ensures Key(NoProgressTimeoutSeconds) == "noprogresstimeoutseconds"
  {
    LowerTimeout();
    PlainKey(NoProgressTimeoutSeconds, "noprogresstimeoutseconds");
  }

  lemma NameIsKnown(p: Param, name: string)
    ensures IsKnown(name, p) <==> name == Key(p)
  {
    ShortKeys();
    PathKey();
    TimeoutKey();
  }

  lemma KnownOnce(name: string, p: Param, q: Param)
    requires IsKnown(name, p) && IsKnown(name, q)
    ensures p == q
  {
  }

  lemma KeysAreDistinct(p: Param, q: Param)
    ensures Key(p) == Key(q) ==> p == q
  {
    if Key(p) == Key(q) {
      NameIsKnown(p, Key(p));
      NameIsKnown(q, Key(p));
      KnownOnce(Key(p), p, q);
    }
  }

  lemma LookupStep(name: string, i: nat)
    requires i < |KNOWN_PARAMS|
    ensures LookupFrom(name, i) == if Key(KNOWN_PARAMS[i]) == Lower(CString(name)) then Some(KNOWN_PARAMS[i])
                                   else LookupFrom(name, i + 1)
  {
  }

  lemma {:induction false} ParamIsLookedUp(name: string, i: nat, p: Param)
    requires i <= |KNOWN_PARAMS|
    ensures LookupFrom(name, i) == Some(p) <==> Key(p) == Lower(CString(name)) && p in KNOWN_PARAMS[i..]
    decreases |KNOWN_PARAMS| - i
  {
    if i < |KNOWN_PARAMS| {
      ParamIsLookedUp(name, i + 1, p);
      LookupStep(name, i);
      KeysAreDistinct(KNOWN_PARAMS[i], p);
      Uncons(KNOWN_PARAMS, i);
    }
  }

  lemma Uncons<T>(s: seq<T>, i: nat)
    requires i < |s|
    ensures s[i..] == [s[i]] + s[i + 1..]
  {
  }

  lemma EveryParamIsListed(p: Param)
    ensures p in KNOWN_PARAMS
  {
    var k := match p case Id => 0 case UriParam => 1 case DownloadFilePath => 2 case NoProgressTimeoutSeconds => 3 case PropertyKey => 4;
    assert KNOWN_PARAMS[k] == p;
  }

  /** Exactly which names stand for which parameter. */
  lemma KnownExactly(name: string, p: Param)
    ensures LookupParam(name) == Some(p) <==> IsKnown(Lower(CString(name)), p)
  {
    ParamIsLookedUp(name, 0, p);
    NameIsKnown(p, Lower(CString(name)));
    EveryParamIsListed(p);
    assert KNOWN_PARAMS[0..] == KNOWN_PARAMS;
  }

  // ---------------------------------------------------------------------------
  // The query
  // ---------------------------------------------------------------------------

  /** The order of std::string. */
  predicate Leq(a: string, b: string) {
    a == "" || (b != "" && (a[0] < b[0] || (a[0] == b[0] && Leq(a[1..], b[1..]))))
  }

  lemma {:induction false} LeqTotal(a: string, b: string)
    ensures Leq(a, b) || Leq(b, a)
  {
    if a != "" && b != "" {
      LeqTotal(a[1..], b[1..]);
    }
  }

  lemma {:induction false} LeqTransitive(a: string, b: string, c: string)
    requires Leq(a, b) && Leq(b, c)
    ensures Leq(a, c)
  {
    if a != "" && a[0] == b[0] == c[0] {
      LeqTransitive(a[1..], b[1..], c[1..]);
    }
  }

  lemma LeqReflexive(a: string)
    ensures Leq(a, a)
  {
    LeqTotal(a, a);
  }

  ghost predicate IsLeast(k: string, keys: set<string>) {
    k in keys && forall j :: j in keys ==> Leq(k, j)
  }

  /** A map is walked from its least key on. */
  lemma {:induction false} LeastExists(keys: set<string>) returns (k: string)
    requires keys != {}
    ensures IsLeast(k, keys)
    decreases |keys|
  {
    var x :| x in keys;
    var others := keys - {x};
    LeqReflexive(x);
    if others == {} {
      forall j | j in keys ensures j == x {
        assert j != x ==> j in others;
      }
      k := x;
    } else {
      var y := LeastExists(others);
      LeqTotal(x, y);
      k := if Leq(x, y) then x else y;
      forall j | j in keys ensures Leq(k, j) {
        if j == x {
          LeqTotal(k, x);
        } else {
          assert Leq(y, j);
          if k == x {
            LeqTransitive(x, y, j);
          }
        }
      }
    }
  }

  /** What a key of a query contributes: a known parameter and the decoded value. */
  function Item(query: map<string, string>, k: string): Option<(Param, string)>
    requires k in query
  {
    if LookupParam(k).Some? && Decode(query[k]).Some? then Some((LookupParam(k).value, Decode(query[k]).value)) else None
  }

  function Items(query: map<string, string>): map<string, Option<(Param, string)>> {
    map k | k in query :: Item(query, k)
  }

  /** k is the last key, in order, that stands for parameter p. */
  ghost predicate LastKeyFor(items: map<string, Option<(Param, string)>>, p: Param, k: string, keys: set<string>) {
    && k in keys && k in items && items[k].Some? && items[k].value.0 == p
    && forall j :: j in keys && j in items && items[j].Some? && items[j].value.0 == p ==> Leq(j, k)
  }

  /** The last key that stands for parameter p has value v. */
  ghost predicate ValueFor(items: map<string, Option<(Param, string)>>, keys: set<string>, p: Param, v: string) {
    exists k :: LastKeyFor(items, p, k, keys) && items[k].value.1 == v
  }

  ghost predicate AllKnown(items: map<string, Option<(Param, string)>>, keys: set<string>) {
    forall k :: k in keys ==> k in items && items[k].Some?
  }

  /** Every parameter under some key, with the value of the last such key. */
  ghost predicate HoldsData(items: map<string, Option<(Param, string)>>, keys: set<string>, data: map<Param, string>) {
    && AllKnown(items, keys)
    && (forall k :: k in keys ==> items[k].value.0 in data)
    && (forall p :: p in data ==> ValueFor(items, keys, p, data[p]))
  }

  lemma DataGrows(items: map<string, Option<(Param, string)>>, keys: set<string>, data: map<Param, string>, k: string)
    requires HoldsData(items, keys, data) && k in items && k !in keys && items[k].Some?
    requires forall j :: j in keys ==> Leq(j, k)
    ensures HoldsData(items, keys + {k}, data[items[k].value.0 := items[k].value.1])
  {
    var more := data[items[k].value.0 := items[k].value.1];
    forall p | p in more ensures ValueFor(items, keys + {k}, p, more[p]) {
      if p == items[k].value.0 {
        LastKeyIsLast(items, keys, k);
      } else {
        var j :| LastKeyFor(items, p, j, keys) && items[j].value.1 == data[p];
        OtherKeysStay(items, p, j, keys, k);
      }
    }
  }

  lemma LastKeyIsLast(items: map<string, Option<(Param, string)>>, keys: set<string>, k: string)
    requires k in items && items[k].Some? && forall j :: j in keys ==> Leq(j, k)
    ensures LastKeyFor(items, items[k].value.0, k, keys + {k})
  {
    LeqReflexive(k);
  }

  lemma OtherKeysStay(items: map<string, Option<(Param, string)>>, p: Param, j: string, keys: set<string>, k: string)
    requires LastKeyFor(items, p, j, keys) && k in items && items[k].Some? && items[k].value.0 != p
    ensures LastKeyFor(items, p, j, keys + {k})
  {
  }

  /** The data of a query string, or None for an unknown parameter or a value that cannot be decoded. */
  ghost predicate QueryHolds(query: string, data: Option<map<Param, string>>) {
    var items := Items(SplitQuery(query));
    if data.None? then !AllKnown(items, items.Keys) else HoldsData(items, items.Keys, data.value)
  }

  method ReadItem(query: map<string, string>, key: string) returns (item: Option<(Param, string)>)
    requires key in query
    ensures item == Item(query, key)
  {
    var param := LookupParam(key);
    if param.None? {
      return None;
    }
    var value := DecodeTemplate(query[key]);
    item := if value.None? then None else Some((param.value, value.value));
  }

  method LeastKey(left: set<string>) returns (key: string)
    requires left != {}
    ensures IsLeast(key, left)
  {
    ghost var least := LeastExists(left);
    key :| key in left && forall j :: j in left ==> Leq(key, j);
  }

  /** The keys done so far come before the ones left. */
  ghost predicate Walked(keys: set<string>, done: set<string>, left: set<string>) {
    left + done == keys && left !! done && forall j, k :: j in done && k in left ==> Leq(j, k)
  }

  lemma WalkOn(keys: set<string>, done: set<string>, left: set<string>, k: string)
    requires Walked(keys, done, left) && IsLeast(k, left)
    ensures Walked(keys, done + {k}, left - {k})
    ensures k in keys && k !in done && forall j :: j in done ==> Leq(j, k)
  {
  }

  /** Walks the pairs in the order of their keys. */
  method DecodeAll(query: map<string, string>, ghost items: map<string, Option<(Param, string)>>)
    returns (ok: bool, data: map<Param, string>)
    requires items.Keys == query.Keys && forall k :: k in query ==> items[k] == Item(query, k)
    ensures ok ==> HoldsData(items, items.Keys, data)
    ensures !ok ==> !AllKnown(items, items.Keys)
  {
    data := map[];
    var left := query.Keys;
    ghost var done: set<string> := {};
    while left != {}
      invariant Walked(items.Keys, done, left)
      invariant HoldsData(items, done, data)
      decreases |left|
    {
      var key := LeastKey(left);
      WalkOn(items.Keys, done, left, key);
      var item := ReadItem(query, key);
      assert item == items[key];
      if item.None? {
        return false, data;
      }
      DataGrows(items, done, data, key);
      data := data[item.value.0 := item.value.1];
      left := left - {key};
      done := done + {key};
    }
    assert done == items.Keys;
    ok := true;
  }

  class RestApiParser {
    const request: Packet
    var apiMethod: ApiMethod
    var queryData: map<Param, string>
    var methodInitialized: bool
    var queryDataInitialized: bool

    ghost predicate Valid()
      reads this
    {
      && (methodInitialized ==> MethodOf(request) == Some(apiMethod))
      && (queryDataInitialized ==> QueryHolds(request.url.query, Some(queryData)))
    }

    constructor (request: Packet)
      ensures Valid() && this.request == request
    {
      this.request := request;
      methodInitialized, queryDataInitialized := false, false;
      queryData := map[];
    }

    /** None stands for the exception about an unsupported request. */
    method Method() returns (r: Option<ApiMethod>)
      requires Valid()
      modifies this`apiMethod, this`methodInitialized
      ensures Valid() && r == MethodOf(request)
    {
      if !methodInitialized {
        var path := DecodeTemplate(request.url.path);
        if path.Some? {
          var paths := SplitPathLoop(path.value);
          if |paths| == 2 && EqualNoCase(paths[0], "download") {
            var it := LookupApiFrom(paths[1], 0);
            if it.Some? && request.verb == ApiVerb(it.value) {
              apiMethod := it.value;
              methodInitialized := true;
            }
          }
        }
      }
      r := if methodInitialized then Some(apiMethod) else None;
    }

    /** False stands for the exception about an unknown parameter or a value that cannot be decoded. */
    method ParseQueryString() returns (ok: bool)
      requires Valid() && !queryDataInitialized
      modifies this`queryData
      ensures Valid() && QueryHolds(request.url.query, if ok then Some(queryData) else None)
      ensures !ok ==> queryData == old(queryData)
    {
      var query := SplitQueryLoop(request.url.query);
      ghost var items := Items(query);
      var decodedQueryData;
      ok, decodedQueryData := DecodeAll(query, items);
      if ok {
        queryData := decodedQueryData;
      }
    }

    /** The value of a parameter, or nothing; failure stands for an exception. */
    method QueryStringParam(param: Param) returns (ok: bool, value: Option<string>)
      requires Valid()
      modifies this`queryData, this`queryDataInitialized
      ensures Valid()
      ensures QueryHolds(request.url.query, if ok then Some(queryData) else None)
      ensures ok ==> value == if param in queryData then Some(queryData[param]) else None
    {
      if !queryDataInitialized {
        ok := ParseQueryString();
        if !ok {
          return false, None;
        }
        queryDataInitialized := true;
      }
      ok := true;
      value := if param in queryData then Some(queryData[param]) else None;
    }
  }
}
