/** Removing dot segments from a path: the stack of segments against section 5.2.4 of RFC 3986. */
module DotSegments {
  import opened Sequences
  import opened Text

  // ---------------------------------------------------------------------------
  // The stack
  // ---------------------------------------------------------------------------

  /** The segments of a path; empty ones are dropped. */
  function SplitPath(path: string): seq<string>
    decreases |path|
  {
    var k := Span(path, "/");
    if k < |path| then With([], path[..k]) + SplitPath(path[k + 1..]) else With([], path[..k])
  }

  method FindSlash(path: string, from: nat) returns (end: nat)
    requires from <= |path|
    ensures end == from + Span(path[from..], "/")
  {
    end := from;
    while end < |path| && path[end] != '/'
      invariant from <= end <= |path|
      invariant forall j :: from <= j < end ==> path[j] != '/'
    {
      end := end + 1;
    }
    SpanAt(path[from..], "/", end - from);
  }

  /** The pieces before and after a slash, put together. */
  function With(results: seq<string>, piece: string): seq<string> {
    if piece != "" then results + [piece] else results
  }

  lemma WithAssociates(results: seq<string>, piece: string, more: seq<string>)
    ensures results + (With([], piece) + more) == With(results, piece) + more
  {
  }

  lemma WithIsAppend(results: seq<string>, piece: string)
    ensures results + With([], piece) == With(results, piece)
  {
  }

  lemma SplitStep(rest: string, k: nat, piece: string)
    requires k == Span(rest, "/") && piece == rest[..k]
    ensures k < |rest| ==> SplitPath(rest) == With([], piece) + SplitPath(rest[k + 1..])
    ensures k == |rest| ==> SplitPath(rest) == With([], piece)
  {
  }

  method SplitPathLoop(path: string) returns (results: seq<string>)
    ensures results == SplitPath(path)
  {
    results := [];
    var i := 0;
    var more := true;
    assert path[0..] == path;
    while more
      invariant i <= |path|
      invariant more ==> results + SplitPath(path[i..]) == SplitPath(path)
      invariant !more ==> results == SplitPath(path)
      decreases |path| - i, more
    {
      results, i, more := ReadPiece(path, i, results);
    }
  }

  lemma Slices(path: string, i: nat, end: nat)
    requires i <= end <= |path|
    ensures path[i..end] == path[i..][..end - i]
    ensures end < |path| ==> path[end + 1..] == path[i..][end - i + 1..]
  {
  }

  /** One more piece read from a path, from position i on. */
  lemma PieceAt(before: seq<string>, path: string, i: nat, end: nat)
    requires i <= end <= |path| && end - i == Span(path[i..], "/")
    ensures before + SplitPath(path[i..]) == if end < |path| then With(before, path[i..end]) + SplitPath(path[end + 1..])
                                             else With(before, path[i..end])
  {
    var piece := path[i..end];
    Slices(path, i, end);
    SplitStep(path[i..], end - i, piece);
    if end < |path| {
      WithAssociates(before, piece, SplitPath(path[end + 1..]));
    } else {
      WithIsAppend(before, piece);
    }
  }

  /** Reads up to the next slash or the end of the path; empty pieces are dropped. */
  method ReadPiece(path: string, i: nat, before: seq<string>) returns (results: seq<string>, next: nat, more: bool)
    requires i <= |path|
    ensures more ==> i < next <= |path| && results + SplitPath(path[next..]) == before + SplitPath(path[i..])
    ensures !more ==> next == i && results == before + SplitPath(path[i..])
  {
    var end := FindSlash(path, i);
    PieceAt(before, path, i, end);
    results := before;
    if path[i..end] != "" {
      results := results + [path[i..end]];
    }
    more := end < |path|;
    next := if more then end + 1 else i;
  }

  predicate IsDot(segment: string) {
    segment == "." || segment == ".."
  }

  /** What a segment does to the stack: "." is skipped, ".." pops, anything else is pushed. */
  function Step(segment: string, stack: seq<string>): seq<string> {
    if segment == "." then stack
    else if segment != ".." then stack + [segment]
    else if stack != [] then stack[..|stack| - 1]
    else stack
  }

  function Reduce(segments: seq<string>, stack: seq<string>): seq<string> {
    if segments == [] then stack else Reduce(segments[1..], Step(segments[0], stack))
  }

  /** The segments with slashes in between. */
  function JoinSegments(segments: seq<string>): string {
    if segments == [] then ""
    else if |segments| == 1 then segments[0]
    else JoinSegments(segments[..|segments| - 1]) + "/" + segments[|segments| - 1]
  }

  predicate EndsWithSlash(path: string) {
    path != "" && path[|path| - 1] == '/'
  }

  function RemoveDotSegments(path: string): string {
    if '.' !in path then path
    else
      var segments := SplitPath(path);
      var result := Reduce(segments, []);
      if result == [] then ""
      else JoinSegments(result) + if (segments != [] && IsDot(segments[|segments| - 1])) || EndsWithSlash(path) then "/" else ""
  }

  method ReduceLoop(segments: seq<string>) returns (result: seq<string>)
    ensures result == Reduce(segments, [])
  {
    result := [];
    var i := 0;
    while i < |segments|
      invariant i <= |segments|
      invariant Reduce(segments[i..], result) == Reduce(segments, [])
    {
      assert segments[i..][1..] == segments[i + 1..];
      if segments[i] == "." {
      } else if segments[i] != ".." {
        result := result + [segments[i]];
      } else if result != [] {
        result := result[..|result| - 1];
      }
      i := i + 1;
    }
  }

  method JoinLoop(result: seq<string>) returns (path: string)
    requires result != []
    ensures path == JoinSegments(result)
  {
    path := result[0];
    var i := 1;
    while i != |result|
      invariant 1 <= i <= |result|
      invariant path == JoinSegments(result[..i])
    {
      assert result[..i + 1][..i] == result[..i];
      path := path + "/";
      path := path + result[i];
      i := i + 1;
    }
    assert result[..i] == result;
  }

  method RemoveDotSegmentsLoop(path: string) returns (newPath: string)
    ensures newPath == RemoveDotSegments(path)
  {
    if '.' !in path {
      return path;
    }
    var segments := SplitPathLoop(path);
    var result := ReduceLoop(segments);
    if result == [] {
      return "";
    }
    newPath := JoinLoop(result);
    assert newPath + "" == newPath;
    assert segments == [] ==> Reduce(segments, []) == [];
    var last := segments[|segments| - 1];
    if last == ".." || last == "." || path[|path| - 1] == '/' {
      newPath := newPath + "/";
    }
  }

  // ---------------------------------------------------------------------------
  // The algorithm of the standard
  // ---------------------------------------------------------------------------

  predicate StartsWith(s: string, prefix: string) {
    prefix <= s
  }

  /** The output buffer without its last segment and the slash before it. */
  function DropLastSegment(output: string): string {
    if output == "" then ""
    else if output[|output| - 1] == '/' then output[..|output| - 1]
    else DropLastSegment(output[..|output| - 1])
  }

  /** The first path segment of the input, including its initial slash. */
  function FirstSegment(input: string): (k: nat)
    requires input != ""
    ensures 0 < k <= |input|
  {
    if input[0] == '/' then 1 + Span(input[1..], "/") else Span(input, "/")
  }

  /** Steps A to E of section 5.2.4 of RFC 3986, over an input and an output buffer. */
  function Rfc3986(input: string, output: string): string
    decreases |input|
  {
    if input == "" then output
    else if StartsWith(input, "../") then Rfc3986(input[3..], output)
    else if StartsWith(input, "./") then Rfc3986(input[2..], output)
    else if StartsWith(input, "/./") then Rfc3986("/" + input[3..], output)
    else if input == "/." then Rfc3986("/", output)
    else if StartsWith(input, "/../") then Rfc3986("/" + input[4..], DropLastSegment(output))
    else if input == "/.." then Rfc3986("/", DropLastSegment(output))
    else if IsDot(input) then output
    else Rfc3986(input[FirstSegment(input)..], output + input[..FirstSegment(input)])
  }

  // ---------------------------------------------------------------------------
  // Paths as segments
  // ---------------------------------------------------------------------------

  predicate IsSegment(s: string) {
    s != "" && '/' !in s
  }

  predicate AreSegments(segments: seq<string>) {
    forall i :: 0 <= i < |segments| ==> IsSegment(segments[i])
  }

  /** A slash before every segment. */
  function Render(segments: seq<string>): string {
    if segments == [] then "" else "/" + segments[0] + Render(segments[1..])
  }

  predicate NoDoubleSlash(path: string) {
    forall i :: 0 <= i < |path| - 1 ==> !(path[i] == '/' && path[i + 1] == '/')
  }

  predicate Rooted(path: string) {
    path != "" && path[0] == '/' && NoDoubleSlash(path)
  }

  function Trail(path: string): string {
    if EndsWithSlash(path) then "/" else ""
  }

  lemma {:induction false} SplitGivesSegments(path: string)
    ensures AreSegments(SplitPath(path))
    decreases |path|
  {
    var k := Span(path, "/");
    if k > 0 {
      assert '/' !in path[..k];
    }
    if k < |path| {
      SplitGivesSegments(path[k + 1..]);
    }
  }

  lemma SplitSkipsSlash(rest: string)
    ensures SplitPath("/" + rest) == SplitPath(rest)
  {
    SpanAt("/" + rest, "/", 0);
    assert ("/" + rest)[1..] == rest;
    assert [] + SplitPath(rest) == SplitPath(rest);
  }

  lemma SplitAtSlash(s: string, more: string)
    requires IsSegment(s)
    ensures SplitPath(s + ("/" + more)) == [s] + SplitPath(more)
  {
    var t := s + ("/" + more);
    assert forall i :: 0 <= i < |s| ==> t[i] == s[i];
    SpanAt(t, "/", |s|);
    CutAtSlash(s, more);
    assert With([], s) == [s];
  }

  lemma CutAtSlash(s: string, more: string)
    ensures (s + ("/" + more))[..|s|] == s && (s + ("/" + more))[|s| + 1..] == more
  {
  }

  lemma SplitOnly(s: string)
    requires IsSegment(s)
    ensures SplitPath(s) == [s]
  {
    SpanAt(s, "/", |s|);
    assert s[..|s|] == s;
  }

  /** Splitting off the first segment of a rooted path. */
  lemma SplitFirst(s: string, rest: string)
    requires IsSegment(s) && (rest != "" ==> rest[0] == '/')
    ensures SplitPath("/" + (s + rest)) == [s] + SplitPath(rest)
  {
    SplitSkipsSlash(s + rest);
    if rest != "" {
      assert "/" + rest[1..] == rest;
      SplitAtSlash(s, rest[1..]);
      SplitSkipsSlash(rest[1..]);
    } else {
      SplitOnly(s);
      assert s + rest == s;
      assert SplitPath("") == [];
    }
  }

  lemma RenderFirst(s: string, more: seq<string>, trail: string)
    ensures Render([s] + more) + trail == "/" + (s + (Render(more) + trail))
  {
    assert ([s] + more)[1..] == more;
  }

  lemma RootedTail(path: string, k: nat)
    requires Rooted(path) && 0 < k < |path| && path[k] == '/'
    ensures Rooted(path[k..]) && Trail(path[k..]) == Trail(path)
  {
    assert forall i :: 0 <= i < |path| - k ==> path[k..][i] == path[k + i];
  }

  lemma RootedFirst(path: string)
    requires Rooted(path) && |path| > 1
    ensures IsSegment(path[1..][..Span(path[1..], "/")])
  {
    assert path[1..][0] == path[1] != '/';
  }

  lemma LastOfTail(path: string, k: nat)
    requires Rooted(path) && |path| > 1 && k == Span(path[1..], "/") == |path| - 1
    ensures Trail(path) == ""
  {
    assert path[1..][k - 1] == path[|path| - 1];
  }

  /** A rooted path is its segments, each after a slash, and perhaps a slash at the end. */
  lemma {:induction false} RootedPath(path: string)
    requires Rooted(path)
    ensures path == Render(SplitPath(path)) + Trail(path)
    decreases |path|
  {
    if |path| == 1 {
      assert path == "/" + "";
      SplitSkipsSlash("");
      assert SplitPath("") == [];
    } else {
      var rest := path[1..];
      var k := Span(rest, "/");
      var tail := rest[k..];
      assert tail == path[k + 1..];
      assert path == "/" + (rest[..k] + tail);
      RootedFirst(path);
      SplitFirst(rest[..k], tail);
      if tail == "" {
        LastOfTail(path, k);
        RenderFirst(rest[..k], [], "");
        assert SplitPath("") == [];
        assert Render([]) + "" == tail;
      } else {
        RootedTail(path, k + 1);
        RootedPath(tail);
        RenderFirst(rest[..k], SplitPath(tail), Trail(path));
      }
    }
  }

  lemma {:induction false} RenderAppend(a: seq<string>, s: string)
    ensures Render(a + [s]) == Render(a) + "/" + s
  {
    if a == [] {
      assert a + [s] == [s];
      assert Render([s]) == "/" + s + Render([s][1..]);
    } else {
      assert (a + [s])[1..] == a[1..] + [s];
      RenderAppend(a[1..], s);
    }
  }

  lemma {:induction false} DropSegment(out: string, s: string)
    requires '/' !in s
    ensures DropLastSegment(out + "/" + s) == out
  {
    var o := out + "/" + s;
    if s == "" {
      assert o[..|o| - 1] == out;
    } else {
      assert o[|o| - 1] == s[|s| - 1];
      assert o[..|o| - 1] == out + "/" + s[..|s| - 1];
      DropSegment(out, s[..|s| - 1]);
    }
  }

  /** Popping the stack is dropping the last segment of the output buffer. */
  lemma PopIsDrop(front: seq<string>, last: string)
    requires IsSegment(last)
    ensures DropLastSegment(Render(front + [last])) == Render(front)
  {
    RenderAppend(front, last);
    DropSegment(Render(front), last);
  }

  // ---------------------------------------------------------------------------
  // Both do the same
  // ---------------------------------------------------------------------------

  function FinalSlash(segments: seq<string>, trail: string): string {
    if trail == "/" || (segments != [] && IsDot(segments[|segments| - 1])) then "/" else ""
  }

  lemma SlashIsMoved(output: string)
    ensures Rfc3986("/", output) == output + "/"
  {
    assert FirstSegment("/") == 1;
    assert Rfc3986("/"[1..], output + "/"[..1]) == output + "/";
  }

  /** The standard's step for an ordinary segment. */
  lemma OrdinaryStep(s: string, rest: string, output: string)
    requires IsSegment(s) && !IsDot(s) && (rest != "" ==> rest[0] == '/')
    ensures Rfc3986("/" + s + rest, output) == Rfc3986(rest, output + ("/" + s))
  {
    var input := "/" + s + rest;
    assert input[1..] == s + rest;
    forall i | 0 <= i < |s| ensures input[1 + i] == s[i] && s[i] != '/' {
    }
    SpanAt(input[1..], "/", |s|);
    assert FirstSegment(input) == 1 + |s|;
    assert input[1 + |s|..] == rest && input[..1 + |s|] == "/" + s;
    OrdinaryIsNoDot(s, rest);
  }

  lemma OrdinaryIsNoDot(s: string, rest: string)
    requires IsSegment(s) && !IsDot(s) && (rest != "" ==> rest[0] == '/')
    ensures var input := "/" + s + rest;
            !StartsWith(input, "../") && !StartsWith(input, "./") && !StartsWith(input, "/./") && input != "/."
            && !StartsWith(input, "/../") && input != "/.." && !IsDot(input)
  {
    var input := "/" + s + rest;
    assert input[1] == s[0];
    assert |s| >= 2 ==> input[2] == s[1] && s[1] != '/';
    assert |s| >= 3 ==> input[3] == s[2] && s[2] != '/';
    assert |s| == 1 ==> s == [s[0]] && s != ".";
    assert |s| == 2 ==> s == [s[0], s[1]] && s != "..";
    assert rest != "" ==> input[1 + |s|] == '/';
  }

  lemma DotStep(rest: string, output: string)
    requires rest != "" ==> rest[0] == '/'
    ensures Rfc3986("/" + "." + rest, output) == if rest == "" then output + "/" else Rfc3986(rest, output)
  {
    var input := "/" + "." + rest;
    assert input[0] == '/';
    if rest == "" {
      assert input == "/.";
      SlashIsMoved(output);
    } else {
      assert input[..3] == "/./";
      assert input[3..] == rest[1..] && "/" + rest[1..] == rest;
    }
  }

  lemma DotDotStep(rest: string, output: string)
    requires rest != "" ==> rest[0] == '/'
    ensures Rfc3986("/" + ".." + rest, output)
         == if rest == "" then DropLastSegment(output) + "/" else Rfc3986(rest, DropLastSegment(output))
  {
    var input := "/" + ".." + rest;
    assert input[0] == '/' && input[2] == '.';
    if rest == "" {
      assert input == "/..";
      SlashIsMoved(DropLastSegment(output));
    } else {
      assert input[..4] == "/../";
      assert input[4..] == rest[1..] && "/" + rest[1..] == rest;
    }
  }

  lemma StackSkips(rest: string, stack: seq<string>)
    requires rest != "" ==> rest[0] == '/'
    ensures Rfc3986("/" + "." + rest, Render(stack))
         == if rest == "" then Render(Step(".", stack)) + "/" else Rfc3986(rest, Render(Step(".", stack)))
  {
    DotStep(rest, Render(stack));
  }

  lemma StackPops(stack: seq<string>)
    requires AreSegments(stack)
    ensures DropLastSegment(Render(stack)) == Render(Step("..", stack))
  {
    if stack != [] {
      var n := |stack| - 1;
      PopIsDrop(stack[..n], stack[n]);
      assert stack[..n] + [stack[n]] == stack;
    }
  }

  lemma StackPushes(s: string, stack: seq<string>)
    requires !IsDot(s)
    ensures Render(Step(s, stack)) == Render(stack) + ("/" + s)
  {
    RenderAppend(stack, s);
    Associates(Render(stack), "/", s);
  }

  /** One segment, seen by both. */
  lemma StackStep(s: string, rest: string, stack: seq<string>)
    requires IsSegment(s) && AreSegments(stack) && (rest != "" ==> rest[0] == '/')
    ensures Rfc3986("/" + s + rest, Render(stack))
         == if IsDot(s) && rest == "" then Render(Step(s, stack)) + "/" else Rfc3986(rest, Render(Step(s, stack)))
  {
    if s == "." {
      StackSkips(rest, stack);
    } else if s == ".." {
      StackPops(stack);
      DotDotStep(rest, Render(stack));
    } else {
      StackPushes(s, stack);
      OrdinaryStep(s, rest, Render(stack));
    }
  }

  /** The stack and the output buffer agree, whatever was put on them so far. */
  lemma {:induction false} StackRefinesStandard(segments: seq<string>, stack: seq<string>, trail: string)
    requires AreSegments(segments) && AreSegments(stack) && (trail == "" || trail == "/")
    ensures Rfc3986(Render(segments) + trail, Render(stack))
         == Render(Reduce(segments, stack)) + FinalSlash(segments, trail)
  {
    if segments == [] {
      assert Render(segments) + trail == trail;
      if trail == "/" {
        SlashIsMoved(Render(stack));
      } else {
        assert Render(stack) + "" == Render(stack);
      }
    } else {
      var s := segments[0];
      var tail := segments[1..];
      var rest := Render(tail) + trail;
      assert segments == [s] + tail;
      RenderFirst(s, tail, trail);
      assert "/" + (s + rest) == "/" + s + rest;
      StackStep(s, rest, stack);
      StackRefinesStandard(tail, Step(s, stack), trail);
      if rest == "" {
        assert tail == [];
      } else {
        assert FinalSlash(segments, trail) == FinalSlash(tail, trail);
      }
    }
  }

  /** Printing a URI with a host puts a slash before a path that has none. */
  function WithLeadingSlash(path: string): string {
    if path == "" || path[0] != '/' then "/" + path else path
  }

  lemma {:induction false} JoinIsRender(segments: seq<string>)
    requires segments != []
    ensures "/" + JoinSegments(segments) == Render(segments)
  {
    var n := |segments|;
    var front := segments[..n - 1];
    assert front + [segments[n - 1]] == segments;
    RenderAppend(front, segments[n - 1]);
    if n > 1 {
      JoinIsRender(front);
      assert "/" + (JoinSegments(front) + "/" + segments[n - 1]) == "/" + JoinSegments(front) + "/" + segments[n - 1];
    } else {
      assert Render(front) == "";
      assert "" + "/" + segments[0] == "/" + segments[0];
    }
  }

  lemma {:induction false} ReduceKeeps(segments: seq<string>, stack: seq<string>)
    requires AreSegments(segments) && AreSegments(stack) && forall i :: 0 <= i < |stack| ==> !IsDot(stack[i])
    ensures AreSegments(Reduce(segments, stack))
    ensures forall i :: 0 <= i < |Reduce(segments, stack)| ==> !IsDot(Reduce(segments, stack)[i])
    ensures segments != [] && !IsDot(segments[|segments| - 1]) ==> Reduce(segments, stack) != []
    ensures segments == [] ==> Reduce(segments, stack) == stack
  {
    if segments != [] {
      ReduceKeeps(segments[1..], Step(segments[0], stack));
    }
  }

  lemma {:induction false} NothingToReduce(segments: seq<string>, stack: seq<string>)
    requires forall i :: 0 <= i < |segments| ==> !IsDot(segments[i])
    ensures Reduce(segments, stack) == stack + segments
  {
    if segments != [] {
      assert !IsDot(segments[0]);
      NothingToReduce(segments[1..], stack + [segments[0]]);
      assert stack + [segments[0]] + segments[1..] == stack + segments;
    }
  }

  lemma {:induction false} SegmentsAreParts(path: string)
    requires '.' !in path
    ensures forall i :: 0 <= i < |SplitPath(path)| ==> !IsDot(SplitPath(path)[i])
    decreases |path|
  {
    var k := Span(path, "/");
    NotInSlice(path, '.', 0, k);
    PieceIsNoDot(path[..k]);
    if k < |path| {
      NotInSlice(path, '.', k + 1, |path|);
      SegmentsAreParts(path[k + 1..]);
    }
  }

  lemma PieceIsNoDot(piece: string)
    requires '.' !in piece
    ensures !IsDot(piece)
  {
    assert "."[0] == '.' && ".."[0] == '.';
  }

  lemma NothingRemoved(path: string)
    requires Rooted(path) && '.' !in path
    ensures WithLeadingSlash(path) == Render(Reduce(SplitPath(path), [])) + FinalSlash(SplitPath(path), Trail(path))
  {
    var segments := SplitPath(path);
    RootedPath(path);
    SegmentsAreParts(path);
    NothingToReduce(segments, []);
    assert [] + segments == segments;
  }

  lemma JoinBegins(segments: seq<string>)
    requires segments != [] && AreSegments(segments)
    ensures JoinSegments(segments) != "" && JoinSegments(segments)[0] != '/'
  {
    JoinIsRender(segments);
    RenderBegins(segments);
    assert JoinSegments(segments) == Render(segments)[1..];
  }

  lemma JoinedIsRendered(segments: seq<string>, slash: string)
    requires segments != [] && AreSegments(segments)
    ensures WithLeadingSlash(JoinSegments(segments) + slash) == Render(segments) + slash
  {
    JoinBegins(segments);
    JoinIsRender(segments);
    assert (JoinSegments(segments) + slash)[0] == JoinSegments(segments)[0];
    Associates("/", JoinSegments(segments), slash);
  }

  /** The result with its leading slash is the segments left, rendered, unless nothing had to be done. */
  lemma ResultIsRendered(path: string)
    requires Rooted(path)
    ensures var segments := SplitPath(path);
            WithLeadingSlash(RemoveDotSegments(path)) == Render(Reduce(segments, [])) + FinalSlash(segments, Trail(path))
  {
    var segments := SplitPath(path);
    var result := Reduce(segments, []);
    if '.' !in path {
      NothingRemoved(path);
    } else {
      SplitGivesSegments(path);
      ReduceKeeps(segments, []);
      if result != [] {
        JoinedIsRendered(result, FinalSlash(segments, Trail(path)));
      } else {
        NothingLeft(path);
      }
    }
  }

  lemma NothingLeft(path: string)
    requires Rooted(path) && Reduce(SplitPath(path), []) == []
    ensures FinalSlash(SplitPath(path), Trail(path)) == "/"
  {
    var segments := SplitPath(path);
    RootedPath(path);
    SplitGivesSegments(path);
    ReduceKeeps(segments, []);
    assert segments == [] ==> path == Trail(path);
  }

  /**
   * For every path that begins with a slash and has no empty segment, the stack gives what the standard's
   * algorithm gives, once the leading slash has been restored.
   */
  lemma RemovesDotSegmentsAsStandard(path: string)
    requires Rooted(path)
    ensures WithLeadingSlash(RemoveDotSegments(path)) == Rfc3986(path, "")
  {
    SplitGivesSegments(path);
    RootedPath(path);
    StackRefinesStandard(SplitPath(path), [], Trail(path));
    ResultIsRendered(path);
  }

  lemma RenderBegins(segments: seq<string>)
    requires segments != [] && AreSegments(segments)
    ensures |Render(segments)| >= 2 && Render(segments)[1] == segments[0][0] != '/'
  {
    assert IsSegment(segments[0]);
  }

  /** Segments that were rendered are found again. */
  lemma {:induction false} SplitUndoesRender(segments: seq<string>, trail: string)
    requires AreSegments(segments) && (trail == "" || trail == "/")
    ensures SplitPath(Render(segments) + trail) == segments
  {
    if segments == [] {
      assert Render(segments) + trail == trail;
      assert SplitPath("") == [];
      if trail == "/" {
        SplitSkipsSlash("");
      }
    } else {
      var s := segments[0];
      var tail := segments[1..];
      assert segments == [s] + tail;
      RenderFirst(s, tail, trail);
      SplitUndoesRender(tail, trail);
      SplitFirst(s, Render(tail) + trail);
    }
  }

  /** No dot segment is left. */
  lemma NoDotSegmentIsLeft(path: string)
    requires Rooted(path)
    ensures forall s :: s in SplitPath(WithLeadingSlash(RemoveDotSegments(path))) ==> !IsDot(s)
  {
    var segments := SplitPath(path);
    SplitGivesSegments(path);
    ReduceKeeps(segments, []);
    ResultIsRendered(path);
    SplitUndoesRender(Reduce(segments, []), FinalSlash(segments, Trail(path)));
  }
}
