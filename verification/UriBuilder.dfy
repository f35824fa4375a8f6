/** Building a URI from its components. */
module UriBuilders {
  import opened Sequences
  import opened TaskQueues
  import opened Text
  import opened Uri
  import opened Percent
  import opened Query
  import opened DotSegments

  /** Appending to a path, with exactly one slash in between; a lone slash counts as no path. */
  function AppendToPath(path: string, toAppend: string): string {
    if toAppend == "" || toAppend == "/" then path
    else if path == "" || path == "/" then (if toAppend[0] != '/' then "/" else "") + toAppend
    else if path[|path| - 1] == '/' && toAppend[0] == '/' then path[..|path| - 1] + toAppend
    else if path[|path| - 1] != '/' && toAppend[0] != '/' then path + "/" + toAppend
    else path + toAppend
  }

  /** Without the slash at the end, if there is one. */
  function TrimEnd(path: string): string {
    if EndsWithSlash(path) then path[..|path| - 1] else path
  }

  /** Without the slash at the beginning, if there is one. */
  function TrimStart(path: string): string {
    if path != "" && path[0] == '/' then path[1..] else path
  }

  /** Whatever slashes the two texts meet with, there is exactly one at the seam. */
  lemma OneSlashInBetween(path: string, toAppend: string)
    requires toAppend != "" && toAppend != "/"
    ensures AppendToPath(path, toAppend) == TrimEnd(path) + "/" + TrimStart(toAppend)
  {
    if EndsWithSlash(path) {
      assert path == TrimEnd(path) + "/";
    }
    if toAppend[0] == '/' {
      assert toAppend == "/" + TrimStart(toAppend);
    }
    if path == "" || path == "/" {
      assert TrimEnd(path) == "";
    }
  }

  lemma {:induction false} SplitConcat(path: string, more: string)
    ensures SplitPath(path + "/" + more) == SplitPath(path) + SplitPath(more)
    decreases |path|
  {
    var k := Span(path, "/");
    InBetween(path, '/', more);
    DotSegments.SplitStep(path, k, path[..k]);
    DotSegments.SplitStep(path + "/" + more, k, path[..k]);
    if k < |path| {
      SplitConcat(path[k + 1..], more);
      Associates(With([], path[..k]), SplitPath(path[k + 1..]), SplitPath(more));
    }
  }

  lemma SlashAtTheEnd(path: string)
    ensures SplitPath(TrimEnd(path)) == SplitPath(path)
  {
    if EndsWithSlash(path) {
      assert path == TrimEnd(path) + "/" + "";
      SplitConcat(TrimEnd(path), "");
      assert SplitPath("") == [];
    }
  }

  lemma SlashAtTheStart(path: string)
    ensures SplitPath(TrimStart(path)) == SplitPath(path)
  {
    if path != "" && path[0] == '/' {
      assert path == "/" + TrimStart(path);
      SplitSkipsSlash(TrimStart(path));
    }
  }

  /** The segments of the result are those of the path followed by those that were appended, whatever the two texts. */
  lemma AppendingConcatenatesSegments(path: string, toAppend: string)
    ensures SplitPath(AppendToPath(path, toAppend)) == SplitPath(path) + SplitPath(toAppend)
  {
    if toAppend != "" && toAppend != "/" {
      OneSlashInBetween(path, toAppend);
      SplitConcat(TrimEnd(path), TrimStart(toAppend));
      SlashAtTheEnd(path);
      SlashAtTheStart(toAppend);
    } else {
      assert SplitPath("") == [];
      SplitSkipsSlash("");
      assert "/" == "/" + "";
    }
  }

  /** The text of a URI object made from components, or None when that text is no URI. */
  function ToText(c: Components, stray: int): Option<string> {
    if ParseUri(CString(Join(c)), stray).Some? then Some(Join(c)) else None
  }

  class UriBuilder {
    var m: Components

    constructor ()
      ensures m == NOTHING
    {
      m := NOTHING;
    }

    constructor FromUri(uri: Components)
      ensures m == uri
    {
      m := uri;
    }

    method SetHost(host: string)
      modifies this
      ensures m == old(m).(host := host)
    {
      m := m.(host := host);
    }

    method SetPort(port: int)
      modifies this
      ensures m == old(m).(port := port)
    {
      m := m.(port := port);
    }

    method AppendPath(toAppend: string)
      modifies this
      ensures m == old(m).(path := AppendToPath(old(m.path), toAppend))
    {
      if toAppend != "" && toAppend != "/" {
        var path := m.path;
        if path == "" || path == "/" {
          path := "";
          if toAppend[0] != '/' {
            path := path + "/";
          }
        } else if path[|path| - 1] == '/' && toAppend[0] == '/' {
          path := path[..|path| - 1];
        } else if path[|path| - 1] != '/' && toAppend[0] != '/' {
          path := path + "/";
        }
        m := m.(path := path + toAppend);
      }
    }

    method AppendQuery(toAppend: string)
      modifies this
      ensures toAppend == "" ==> m == old(m)
      ensures toAppend != "" ==> m == old(m).(query := AppendText(old(m.query), toAppend))
    {
      if toAppend != "" {
        var query := m.query;
        if query == "" {
          assert query + toAppend == toAppend;
        } else if query[|query| - 1] == '&' && toAppend[0] == '&' {
          query := query[..|query| - 1];
        } else if query[|query| - 1] != '&' && toAppend[0] != '&' {
          query := query + "&";
        }
        m := m.(query := query + toAppend);
      }
    }

    method AppendQueryPair(name: string, value: string)
      modifies this
      ensures m == old(m).(query := AppendPair(old(m.query), name, value))
    {
      var encodedQuery := EncodeImpl(name, EncodesInQuery);
      encodedQuery := encodedQuery + "=";
      var encodedValue := EncodeImpl(value, EncodesInQuery);
      encodedQuery := encodedQuery + encodedValue;
      AppendQuery(encodedQuery);
    }

    method ToString(stray: int) returns (text: Option<string>)
      ensures text == ToText(m, stray)
    {
      var components := new ComponentsObject(m);
      var uri := components.JoinInPlace();
      var valid := ParseFrom(CString(uri), stray);
      text := if valid.Some? then Some(uri) else None;
    }
  }
}
