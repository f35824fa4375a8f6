/** Building the query of a URI and splitting it into pairs again. */
module Query {
  import opened TaskQueues
  import opened Text
  import opened Uri
  import opened Percent

  // ---------------------------------------------------------------------------
  // Splitting
  // ---------------------------------------------------------------------------

  /** The next separator: an ampersand while there is one, a semicolon after the last. */
  function NextSeparator(q: string): (k: nat)
    ensures k <= |q|
  {
    if Span(q, "&") < |q| then Span(q, "&") else Span(q, ";")
  }

  /** What one piece between separators contributes. */
  function PairMap(piece: string): map<string, string> {
    var k := Span(piece, "=");
    if k == |piece| then map[] else map[piece[..k] := piece[k + 1..]]
  }

  /** The pairs of a query; of several with one key the last wins. */
  function SplitQuery(q: string): map<string, string>
    decreases |q|
  {
    var k := NextSeparator(q);
    if k < |q| then PairMap(q[..k]) + SplitQuery(q[k + 1..]) else PairMap(q)
  }

  method FindFirstOf(q: string, c: char, from: nat) returns (r: Option<nat>)
    requires from <= |q|
    ensures r == if Span(q[from..], [c]) < |q| - from then Some(from + Span(q[from..], [c])) else None
  {
    var i := from;
    while i < |q| && q[i] != c
      invariant from <= i <= |q|
      invariant forall j :: from <= j < i ==> q[j] != c
    {
      i := i + 1;
    }
    SpanAt(q[from..], [c], i - from);
    r := if i < |q| then Some(i) else None;
  }

  lemma MapsAssociate(a: map<string, string>, b: map<string, string>, c: map<string, string>)
    ensures (a + b) + c == a + (b + c)
  {
  }

  lemma MapUpdated(a: map<string, string>, b: map<string, string>, k: string, v: string)
    ensures (a + b)[k := v] == a + b[k := v]
    ensures a + map[k := v] == a[k := v]
  {
  }

  method AddPiece(found: map<string, string>, piece: string) returns (results: map<string, string>)
    ensures results == found + PairMap(piece)
  {
    results := found;
    var equals := FindFirstOf(piece, '=', 0);
    assert piece[0..] == piece;
    if equals.Some? {
      if equals.value == 0 {
        results := results["" := piece[1..]];
        assert piece[..0] == "";
      } else {
        results := results[piece[..equals.value] := piece[equals.value + 1..]];
      }
    }
  }

  method FindSeparator(query: string, begin: nat) returns (r: Option<nat>)
    requires begin <= |query|
    ensures var k := NextSeparator(query[begin..]);
            r == if k < |query| - begin then Some(begin + k) else None
  {
    r := FindFirstOf(query, '&', begin);
    if r.None? {
      r := FindFirstOf(query, ';', begin);
    }
  }

  lemma SplitStep(rest: string, k: nat, piece: string, more: string)
    requires k == NextSeparator(rest) < |rest| && piece == rest[..k] && more == rest[k + 1..]
    ensures SplitQuery(rest) == PairMap(piece) + SplitQuery(more)
  {
  }

  /** One more piece found in the rest of a query. */
  lemma OnePiece(results: map<string, string>, rest: string, k: nat, piece: string, more: string)
    requires k == NextSeparator(rest) < |rest| && piece == rest[..k] && more == rest[k + 1..]
    ensures results + SplitQuery(rest) == (results + PairMap(piece)) + SplitQuery(more)
  {
    SplitStep(rest, k, piece, more);
    MapsAssociate(results, PairMap(piece), SplitQuery(more));
  }

  /** One more piece found in a query, from position begin on. */
  lemma PieceAt(results: map<string, string>, query: string, begin: nat, k: nat)
    requires begin + k < |query| && k == NextSeparator(query[begin..])
    ensures results + SplitQuery(query[begin..])
         == (results + PairMap(query[begin..begin + k])) + SplitQuery(query[begin + k + 1..])
  {
    Slice(query, begin, begin + k);
    Slice(query, begin, begin + k + 1);
    OnePiece(results, query[begin..], k, query[begin..begin + k], query[begin + k + 1..]);
  }

  /** Reads up to the next separator or the end of the query. */
  method ReadPair(query: string, begin: nat, before: map<string, string>)
    returns (results: map<string, string>, next: Option<nat>)
    requires begin <= |query|
    ensures next.Some? ==> begin < next.value <= |query|
                           && results + SplitQuery(query[next.value..]) == before + SplitQuery(query[begin..])
    ensures next.None? ==> results == before + SplitQuery(query[begin..])
  {
    var end := FindSeparator(query, begin);
    if end.Some? {
      PieceAt(before, query, begin, end.value - begin);
      results := AddPiece(before, query[begin..end.value]);
      next := Some(end.value + 1);
    } else {
      LastPiece(query[begin..]);
      results := AddPiece(before, query[begin..]);
      next := None;
    }
  }

  lemma LastPiece(rest: string)
    requires NextSeparator(rest) == |rest|
    ensures SplitQuery(rest) == PairMap(rest)
  {
  }

  method SplitQueryLoop(query: string) returns (results: map<string, string>)
    ensures results == SplitQuery(query)
  {
    results := map[];
    var prev: Option<nat> := Some(0);
    assert query[0..] == query && map[] + SplitQuery(query) == SplitQuery(query);
    while prev.Some?
      invariant prev.Some? ==> prev.value <= |query| && results + SplitQuery(query[prev.value..]) == SplitQuery(query)
      invariant prev.None? ==> results == SplitQuery(query)
      decreases if prev.Some? then |query| - prev.value + 1 else 0
    {
      results, prev := ReadPair(query, prev.value, results);
    }
  }

  // ---------------------------------------------------------------------------
  // Appending
  // ---------------------------------------------------------------------------

  /** Appending text to a query, with exactly one ampersand in between. */
  function AppendText(q: string, text: string): string
    requires text != ""
  {
    if q == "" then text
    else if q[|q| - 1] == '&' && text[0] == '&' then q[..|q| - 1] + text
    else if q[|q| - 1] != '&' && text[0] != '&' then q + "&" + text
    else q + text
  }

  function PairText(name: string, value: string): (t: string)
    ensures t != ""
  {
    EncodeQuery(name) + "=" + EncodeQuery(value)
  }

  function AppendPair(q: string, name: string, value: string): string {
    AppendText(q, PairText(name, value))
  }

  function BuildQuery(pairs: seq<(string, string)>): string {
    if pairs == [] then ""
    else AppendPair(BuildQuery(pairs[..|pairs| - 1]), pairs[|pairs| - 1].0, pairs[|pairs| - 1].1)
  }

  /** The later-wins map of the pairs. */
  function LastWins(pairs: seq<(string, string)>): map<string, string> {
    if pairs == [] then map[] else LastWins(pairs[..|pairs| - 1])[pairs[|pairs| - 1].0 := pairs[|pairs| - 1].1]
  }

  // ---------------------------------------------------------------------------
  // Splitting what was appended
  // ---------------------------------------------------------------------------

  /** Splitting at ampersands only, as is done while another ampersand follows. */
  function SplitAmp(q: string): map<string, string>
    decreases |q|
  {
    var k := Span(q, "&");
    if k < |q| then PairMap(q[..k]) + SplitAmp(q[k + 1..]) else PairMap(q)
  }

  /** A pair's text: no separator, and one equals sign between name and value. */
  predicate IsPair(text: string, name: string, value: string) {
    && text == name + "=" + value
    && '=' !in name && '&' !in text && ';' !in text
  }

  lemma PairSplits(text: string, name: string, value: string)
    requires IsPair(text, name, value)
    ensures SplitQuery(text) == PairMap(text) == map[name := value]
  {
    SpanAt(text, "&", |text|);
    SpanAt(text, ";", |text|);
    assert forall i :: 0 <= i < |name| ==> text[i] == name[i];
    SpanAt(text, "=", |name|);
    assert text[..|name|] == name && text[|name| + 1..] == value;
  }

  /** Whatever the query held before, a pair appended to it is split off as it is. */
  lemma {:induction false} AppendedPairSplits(q: string, text: string, name: string, value: string)
    requires IsPair(text, name, value)
    ensures SplitQuery(q + "&" + text) == SplitAmp(q)[name := value]
    decreases |q|
  {
    InBetween(q, '&', text);
    var k := Span(q, "&");
    if k < |q| {
      AppendedPairSplits(q[k + 1..], text, name, value);
      MapUpdated(PairMap(q[..k]), SplitAmp(q[k + 1..]), name, value);
    } else {
      assert q[..k] == q;
      PairSplits(text, name, value);
      MapUpdated(PairMap(q), map[], name, value);
    }
  }

  /** Splitting at the first ampersand. */
  lemma SplitAmpAt(piece: string, more: string)
    requires '&' !in piece
    ensures SplitAmp(piece + "&" + more) == PairMap(piece) + SplitAmp(more)
    ensures SplitAmp(piece) == PairMap(piece)
  {
    var s := piece + "&" + more;
    assert forall i :: 0 <= i < |piece| ==> s[i] == piece[i];
    SpanAt(s, "&", |piece|);
    SpanAt(piece, "&", |piece|);
    assert s[..|piece|] == piece && s[|piece| + 1..] == more;
  }

  /** An ampersand at the end adds nothing. */
  lemma {:induction false} TrailingAmp(q: string)
    ensures SplitAmp(q + "&") == SplitAmp(q)
    decreases |q|
  {
    var k := Span(q, "&");
    if k < |q| {
      var piece, more := q[..k], q[k + 1..];
      assert q == piece + "&" + more && q + "&" == piece + "&" + (more + "&");
      TrailingAmp(more);
      SplitAmpAt(piece, more);
      SplitAmpAt(piece, more + "&");
    } else {
      SplitAmpAt(q, "");
      assert q + "&" + "" == q + "&";
      assert SplitAmp("") == map[];
    }
  }

  /** Splitting a query to which a pair of texts was appended, by whatever rule of separation. */
  lemma AppendTextSplits(q: string, text: string, name: string, value: string)
    requires IsPair(text, name, value)
    ensures SplitQuery(AppendText(q, text)) == SplitAmp(q)[name := value]
  {
    assert text[0] != '&';
    if q == "" {
      PairSplits(text, name, value);
      assert SplitAmp("") == map[];
    } else if q[|q| - 1] == '&' {
      var front := q[..|q| - 1];
      assert front + "&" == q && q + text == front + "&" + text;
      AppendedPairSplits(front, text, name, value);
      TrailingAmp(front);
    } else {
      AppendedPairSplits(q, text, name, value);
    }
  }

  lemma EncodedPair(name: string, value: string)
    ensures IsPair(PairText(name, value), EncodeQuery(name), EncodeQuery(value))
  {
    QueryEncoding(name);
    QueryEncoding(value);
    var legal := c => IsQueryChar(c) && c != '&' && c != ';' && c != '=';
    assert forall i :: 0 <= i < |EncodeQuery(name)| ==> legal(EncodeQuery(name)[i]);
    assert forall i :: 0 <= i < |EncodeQuery(value)| ==> legal(EncodeQuery(value)[i]);
  }

  /** Appending a pair sends its key to its value, whatever separators the old query held. */
  lemma AppendPairSplits(q: string, name: string, value: string)
    ensures SplitQuery(AppendPair(q, name, value)) == SplitAmp(q)[EncodeQuery(name) := EncodeQuery(value)]
  {
    EncodedPair(name, value);
    AppendTextSplits(q, PairText(name, value), EncodeQuery(name), EncodeQuery(value));
  }

  // ---------------------------------------------------------------------------
  // What an appended pair does to the pairs before it
  // ---------------------------------------------------------------------------

  /** The piece behind the last ampersand. */
  function LastPart(q: string): string
    decreases |q|
  {
    var k := Span(q, "&");
    if k < |q| then LastPart(q[k + 1..]) else q
  }

  /** The pairs of the pieces before the last ampersand. */
  function PairsBefore(q: string): map<string, string>
    decreases |q|
  {
    var k := Span(q, "&");
    if k < |q| then PairMap(q[..k]) + PairsBefore(q[k + 1..]) else map[]
  }

  lemma AmpStep(q: string, k: nat)
    requires k == Span(q, "&") < |q|
    ensures SplitQuery(q) == PairMap(q[..k]) + SplitQuery(q[k + 1..])
    ensures SplitAmp(q) == PairMap(q[..k]) + SplitAmp(q[k + 1..])
  {
  }

  lemma LastStep(q: string, k: nat)
    requires k == Span(q, "&") < |q|
    ensures LastPart(q) == LastPart(q[k + 1..])
  {
  }

  lemma BeforeStep(q: string, k: nat)
    requires k == Span(q, "&") < |q|
    ensures PairsBefore(q) == PairMap(q[..k]) + PairsBefore(q[k + 1..])
  {
  }

  /** The two ways of splitting differ in the last part only. */
  lemma {:induction false} SplitAtLast(q: string)
    ensures '&' !in LastPart(q)
    ensures SplitQuery(q) == PairsBefore(q) + SplitQuery(LastPart(q))
    ensures SplitAmp(q) == PairsBefore(q) + PairMap(LastPart(q))
    decreases |q|
  {
    var k := Span(q, "&");
    if k < |q| {
      AmpStep(q, k);
      LastStep(q, k);
      BeforeStep(q, k);
      var more := q[k + 1..];
      SplitAtLast(more);
      MapsAssociate(PairMap(q[..k]), PairsBefore(more), SplitQuery(LastPart(more)));
      MapsAssociate(PairMap(q[..k]), PairsBefore(more), PairMap(LastPart(more)));
    } else {
      assert forall i :: 0 <= i < |q| ==> q[i] != '&';
    }
  }

  /** A pair is no longer than the text it was found in. */
  lemma PairFits(piece: string)
    ensures forall n :: n in PairMap(piece) ==> '=' in piece && |n| + 1 + |PairMap(piece)[n]| == |piece|
  {
    if Span(piece, "=") < |piece| {
      assert piece[Span(piece, "=")] == '=';
    }
  }

  lemma SemicolonIsNext(p: string)
    requires '&' !in p
    ensures NextSeparator(p) == Span(p, ";")
  {
    SpanAt(p, "&", |p|);
  }

  lemma SemicolonStep(p: string, k: nat)
    requires '&' !in p && k == Span(p, ";") < |p|
    ensures SplitQuery(p) == PairMap(p[..k]) + SplitQuery(p[k + 1..])
  {
    SemicolonIsNext(p);
    SplitStep(p, k, p[..k], p[k + 1..]);
  }

  /** Where semicolons separate, every pair is shorter than the whole. */
  lemma {:induction false} PairsFit(p: string)
    requires '&' !in p
    ensures forall n :: n in SplitQuery(p) ==> '=' in p && |n| + 1 + |SplitQuery(p)[n]| <= |p| - if ';' in p then 1 else 0
    decreases |p|
  {
    var k := Span(p, ";");
    if k < |p| {
      SemicolonStep(p, k);
      assert p[k] == ';';
      NotInSlice(p, '&', k + 1, |p|);
      PairFits(p[..k]);
      PairsFit(p[k + 1..]);
    } else {
      SpanAt(p, "&", |p|);
      PairFits(p);
    }
  }

  lemma OneEquals(p: string)
    ensures PairMap(p) == map[] <==> '=' !in p
    ensures forall m, n :: m in PairMap(p) && n in PairMap(p) ==> m == n
  {
    var k := Span(p, "=");
    if k < |p| {
      assert p[k] == '=' && p[..k] in PairMap(p);
    }
  }

  predicate Within(a: map<string, string>, b: map<string, string>) {
    forall n :: n in a ==> n in b && b[n] == a[n]
  }

  /**
   * The semicolons of the last part may as well not separate: there are none, or it holds no pair, or the pairs of both
   * readings are among those before it.
   */
  predicate SemicolonsDoNotMatter(q: string) {
    var p := LastPart(q);
    || ';' !in p
    || '=' !in p
    || (Within(PairMap(p), PairsBefore(q)) && Within(SplitQuery(p), PairsBefore(q)))
  }

  lemma WithinAddsNothing(a: map<string, string>, b: map<string, string>)
    requires Within(a, b)
    ensures b + a == b
  {
  }

  /** With both a semicolon and an equals sign the two readings of a part have no pair in common. */
  lemma ReadingsDiffer(p: string, n: string)
    requires '&' !in p && ';' in p
    ensures n in PairMap(p) && n in SplitQuery(p) ==> PairMap(p)[n] != SplitQuery(p)[n]
  {
    PairFits(p);
    PairsFit(p);
  }

  lemma SameReading(p: string)
    requires '&' !in p && (';' !in p || '=' !in p)
    ensures SplitQuery(p) == PairMap(p)
  {
    SpanAt(p, "&", |p|);
    if ';' !in p {
      SpanAt(p, ";", |p|);
    } else {
      OneEquals(p);
      PairsFit(p);
      assert forall n :: n !in SplitQuery(p);
    }
  }

  lemma SameReadingsAreWithin(before: map<string, string>, p: string)
    requires '&' !in p && ';' in p && '=' in p && before + SplitQuery(p) == before + PairMap(p)
    ensures Within(PairMap(p), before) && Within(SplitQuery(p), before)
  {
    OneEquals(p);
    var whole :| whole in PairMap(p);
    ReadingsDiffer(p, whole);
    assert (before + PairMap(p))[whole] == PairMap(p)[whole];
    assert whole !in SplitQuery(p);
    forall n | n in SplitQuery(p) ensures n in before && before[n] == SplitQuery(p)[n] {
      assert (before + SplitQuery(p))[n] == SplitQuery(p)[n];
      assert n in before + PairMap(p) && n !in PairMap(p);
    }
  }

  lemma SameSplitExactly(q: string)
    ensures SplitQuery(q) == SplitAmp(q) <==> SemicolonsDoNotMatter(q)
  {
    SplitAtLast(q);
    var p, before := LastPart(q), PairsBefore(q);
    if ';' !in p || '=' !in p {
      SameReading(p);
    } else {
      if Within(PairMap(p), before) && Within(SplitQuery(p), before) {
        WithinAddsNothing(PairMap(p), before);
        WithinAddsNothing(SplitQuery(p), before);
      }
      if SplitQuery(q) == SplitAmp(q) {
        SameReadingsAreWithin(before, p);
      }
    }
  }

  /** Appending a pair, whichever, leaves the other pairs of the query as they were. */
  ghost predicate AppendingKeepsPairs(q: string) {
    forall name, value :: SplitQuery(AppendPair(q, name, value)) == SplitQuery(q)[EncodeQuery(name) := EncodeQuery(value)]
  }

  lemma KeptForTwoNames(a: map<string, string>, b: map<string, string>, m: string, n: string, v: string)
    requires m != n && a[m := v] == b[m := v] && a[n := v] == b[n := v]
    ensures a == b
  {
    forall k ensures k in a <==> k in b {
      assert k != m ==> (k in a[m := v] <==> k in a) && (k in b[m := v] <==> k in b);
      assert k != n ==> (k in a[n := v] <==> k in a) && (k in b[n := v] <==> k in b);
    }
    forall k | k in a ensures a[k] == b[k] {
      if k != m {
        assert a[m := v][k] == a[k] && b[m := v][k] == b[k];
      } else {
        assert a[n := v][k] == a[k] && b[n := v][k] == b[k];
      }
    }
  }

  /**
   * Exactly when the pairs a query held stay what they were: otherwise semicolons behind the last ampersand separated
   * pairs, and no longer do so once an ampersand follows.
   */
  lemma AppendKeepsOldPairs(q: string)
    ensures AppendingKeepsPairs(q) <==> SemicolonsDoNotMatter(q)
  {
    SameSplitExactly(q);
    if SplitQuery(q) == SplitAmp(q) {
      forall name, value
        ensures SplitQuery(AppendPair(q, name, value)) == SplitQuery(q)[EncodeQuery(name) := EncodeQuery(value)]
      {
        AppendPairSplits(q, name, value);
      }
    }
    if AppendingKeepsPairs(q) {
      AppendPairSplits(q, "a", "");
      AppendPairSplits(q, "b", "");
      NothingToEncode("a");
      NothingToEncode("b");
      KeptForTwoNames(SplitQuery(q), SplitAmp(q), "a", "b", EncodeQuery(""));
    }
  }

  /** In a query without ampersands a semicolon and an equals sign are all it takes to change the pairs. */
  lemma SemicolonChangesPairs(q: string)
    requires '&' !in q
    ensures AppendingKeepsPairs(q) <==> ';' !in q || '=' !in q
  {
    AppendKeepsOldPairs(q);
    SpanAt(q, "&", |q|);
    OneEquals(q);
  }

  // ---------------------------------------------------------------------------
  // The round trip
  // ---------------------------------------------------------------------------

  lemma AppendedIsLast(q: string, text: string, name: string, value: string)
    requires IsPair(text, name, value)
    ensures LastPart(AppendText(q, text)) == text
  {
    assert text[0] != '&';
    if q == "" {
      SpanAt(text, "&", |text|);
    } else if q[|q| - 1] == '&' {
      assert q + text == q[..|q| - 1] + "&" + text;
      AmpThenPair(q[..|q| - 1], text);
    } else {
      AmpThenPair(q, text);
    }
  }

  lemma {:induction false} AmpThenPair(q: string, text: string)
    requires '&' !in text
    ensures LastPart(q + "&" + text) == text
    decreases |q|
  {
    InBetween(q, '&', text);
    var k := Span(q, "&");
    if k < |q| {
      AmpThenPair(q[k + 1..], text);
    } else {
      SpanAt(text, "&", |text|);
    }
  }

  /** The map of the encoded pairs. */
  function EncodedLastWins(pairs: seq<(string, string)>): map<string, string> {
    if pairs == [] then map[]
    else EncodedLastWins(pairs[..|pairs| - 1])[EncodeQuery(pairs[|pairs| - 1].0) := EncodeQuery(pairs[|pairs| - 1].1)]
  }

  /** Splitting a built query gives the later-wins map of the encoded pairs. */
  lemma {:induction false} SplitUndoesBuild(pairs: seq<(string, string)>)
    ensures SplitQuery(BuildQuery(pairs)) == EncodedLastWins(pairs)
    ensures ';' !in LastPart(BuildQuery(pairs))
  {
    if pairs == [] {
      assert SplitQuery("") == map[];
    } else {
      var front := pairs[..|pairs| - 1];
      var last := pairs[|pairs| - 1];
      SplitUndoesBuild(front);
      AppendKeepsOldPairs(BuildQuery(front));
      EncodedPair(last.0, last.1);
      AppendedIsLast(BuildQuery(front), PairText(last.0, last.1), EncodeQuery(last.0), EncodeQuery(last.1));
    }
  }

  predicate PairsAreBytes(pairs: seq<(string, string)>) {
    forall i :: 0 <= i < |pairs| ==> Bytes(pairs[i].0) && Bytes(pairs[i].1)
  }

  /** Encoding keeps different names apart. */
  lemma EncodeQueryInjective(a: string, b: string)
    requires Bytes(a) && Bytes(b)
    ensures EncodeQuery(a) == EncodeQuery(b) ==> a == b
  {
    QueryEncoding(a);
    QueryEncoding(b);
  }

  lemma {:induction false} EncodedMapIsMapEncoded(pairs: seq<(string, string)>)
    requires PairsAreBytes(pairs)
    ensures forall n :: n in LastWins(pairs) ==> Bytes(n) && Bytes(LastWins(pairs)[n])
    ensures forall n :: n in LastWins(pairs) ==>
              EncodeQuery(n) in EncodedLastWins(pairs) && EncodedLastWins(pairs)[EncodeQuery(n)] == EncodeQuery(LastWins(pairs)[n])
    ensures forall k :: k in EncodedLastWins(pairs) ==> exists n :: n in LastWins(pairs) && k == EncodeQuery(n)
  {
    if pairs != [] {
      var front := pairs[..|pairs| - 1];
      var last := pairs[|pairs| - 1];
      EncodedMapIsMapEncoded(front);
      forall n | n in LastWins(pairs)
        ensures EncodeQuery(n) in EncodedLastWins(pairs)
             && EncodedLastWins(pairs)[EncodeQuery(n)] == EncodeQuery(LastWins(pairs)[n])
      {
        if n != last.0 {
          EncodeQueryInjective(n, last.0);
        }
      }
      forall k | k in EncodedLastWins(pairs) ensures exists n :: n in LastWins(pairs) && k == EncodeQuery(n) {
        if k == EncodeQuery(last.0) {
          assert last.0 in LastWins(pairs);
        } else {
          var n :| n in LastWins(front) && k == EncodeQuery(n);
          assert n in LastWins(pairs);
        }
      }
    }
  }

  /**
   * Building a query from byte strings and splitting it gives back every name with its last value: the keys are the
   * encoded names, and decoding key and value gives the originals.
   */
  lemma QueryRoundTrip(pairs: seq<(string, string)>)
    requires PairsAreBytes(pairs)
    ensures var split := SplitQuery(BuildQuery(pairs)); var want := LastWins(pairs);
            && (forall n :: n in want ==>
                  EncodeQuery(n) in split && Decode(EncodeQuery(n)) == Some(n) && Decode(split[EncodeQuery(n)]) == Some(want[n]))
            && (forall k :: k in split ==> Decode(k).Some? && Decode(k).value in want)
  {
    SplitUndoesBuild(pairs);
    EncodedMapIsMapEncoded(pairs);
    forall n | n in LastWins(pairs) ensures Decode(EncodeQuery(n)) == Some(n)
                                         && Decode(EncodeQuery(LastWins(pairs)[n])) == Some(LastWins(pairs)[n]) {
      QueryEncoding(n);
      QueryEncoding(LastWins(pairs)[n]);
    }
    forall k | k in SplitQuery(BuildQuery(pairs)) ensures Decode(k).Some? && Decode(k).value in LastWins(pairs) {
      var n :| n in LastWins(pairs) && k == EncodeQuery(n);
    }
  }
}
