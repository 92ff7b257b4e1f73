/**
 The resource path of a request: the pathname, followed by `?` and the query
 fragment when there is one. Nothing is escaped.
 */
module ResourcePath {

  /** `path(opts)`: `pathname` alone when `query` is empty (the only falsy
      string), otherwise `pathname + "?" + query`. */
  function Path(pathname: string, query: string): (r: string)
    ensures query == "" ==> r == pathname
    ensures query != "" ==> r == pathname + "?" + query
  {
    var search := if query != "" then "?" + query else "";
    pathname + search
  }

  /** Splits a resource path at its first `?` into the part before it and
      the part after it; with no `?` the whole string is the pathname. */
  function SplitSearch(r: string): (parts: (string, string))
    ensures '?' !in parts.0
    ensures '?' in r ==> r == parts.0 + "?" + parts.1
    ensures '?' !in r ==> parts == (r, "")
  {
    if r == [] then ([], [])
    else if r[0] == '?' then ([], r[1..])
    else
      var rest := SplitSearch(r[1..]);
      assert r == [r[0]] + r[1..];
      ([r[0]] + rest.0, rest.1)
  }

  /** The pathname is always a prefix of the path, and the length is the
      pathname's alone, or grows by the `?` and the query. */
  lemma PathShape(pathname: string, query: string)
    ensures |Path(pathname, query)| == if query == "" then |pathname| else |pathname| + 1 + |query|
    ensures Path(pathname, query)[..|pathname|] == pathname
  {
  }

  /** No escaping: a non-empty query is the verbatim suffix after the one
      added `?`, which sits right after the pathname. */
  lemma QueryVerbatim(pathname: string, query: string)
    requires query != ""
    ensures Path(pathname, query)[|pathname|] == '?'
    ensures Path(pathname, query)[|pathname| + 1..] == query
  {
  }

  /** A pathname without `?` and any query can be recovered from the path:
      the path is the encoding and `SplitSearch` its decoding. */
  lemma {:induction false} SplitPath(pathname: string, query: string)
    requires '?' !in pathname
    ensures SplitSearch(Path(pathname, query)) == (pathname, query)
  {
    if pathname == [] {
      if query != "" {
        assert Path(pathname, query) == "?" + query;
      }
    } else {
      SplitPath(pathname[1..], query);
      assert Path(pathname, query) == [pathname[0]] + Path(pathname[1..], query);
      var r := Path(pathname, query);
      assert r[0] == pathname[0] && r[0] != '?';
      assert r[1..] == Path(pathname[1..], query);
      assert [pathname[0]] + pathname[1..] == pathname;
    }
  }

  /** Two requests whose pathnames hold no `?` have the same resource path
      only when they have the same pathname and the same query. */
  lemma PathInjective(p1: string, q1: string, p2: string, q2: string)
    requires '?' !in p1 && '?' !in p2
    requires Path(p1, q1) == Path(p2, q2)
    ensures p1 == p2 && q1 == q2
  {
    SplitPath(p1, q1);
    SplitPath(p2, q2);
  }

  /** The two resource paths the path builder's tests expect. */
  lemma PathExamples()
    ensures Path("/settings/env_vars", "") == "/settings/env_vars"
    ensures Path("/settings/env_vars", "repository_id=4114463") == "/settings/env_vars?repository_id=4114463"
  {
  }
}
