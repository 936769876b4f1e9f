/** `singleJoiningSlash`: join a target path and a request path with one `/` between them. */
module PathJoin {

  /** `strings.HasSuffix(a, "/")`. */
  predicate EndsWithSlash(a: string) {
    |a| > 0 && a[|a| - 1] == '/'
  }

  /** `strings.HasPrefix(b, "/")`. */
  predicate StartsWithSlash(b: string) {
    |b| > 0 && b[0] == '/'
  }

  /** `a` with at most one trailing `/` removed. */
  function TrimTrailingSlash(a: string): string {
    if EndsWithSlash(a) then a[..|a| - 1] else a
  }

  /** `b` with at most one leading `/` removed. */
  function TrimLeadingSlash(b: string): string {
    if StartsWithSlash(b) then b[1..] else b
  }

  /**
   * The four-case join. Whatever the boundary slashes, the result is the
   * target path with one trailing `/` dropped, then one `/`, then the request
   * path with one leading `/` dropped: it keeps the target's text in front
   * and the request's text at the end, and the join itself adds exactly one
   * `/`.
   */
  function SingleJoiningSlash(a: string, b: string): (r: string)
    ensures r == TrimTrailingSlash(a) + "/" + TrimLeadingSlash(b)
    ensures TrimTrailingSlash(a) <= r && r[|TrimTrailingSlash(a)|] == '/'
    ensures r[|r| - |TrimLeadingSlash(b)|..] == TrimLeadingSlash(b)
  {
    var aSlash := EndsWithSlash(a);
    var bSlash := StartsWithSlash(b);
    if aSlash && bSlash then
      assert a == a[..|a| - 1] + "/";
      a + b[1..]
    else if !aSlash && !bSlash then
      a + "/" + b
    else if aSlash then
      assert a == a[..|a| - 1] + "/";
      a + b
    else
      assert b == "/" + b[1..];
      a + b
  }

  /**
   * No `//` straddles the join when the target path does not end in `//` and
   * the request path does not start with `//`: the characters on either side
   * of the joining `/` are not slashes.
   */
  lemma NoDoubleSlashAtJoin(a: string, b: string)
    requires !(|a| >= 2 && a[|a| - 2..] == "//")
    requires !(|b| >= 2 && b[..2] == "//")
    ensures var a', r := TrimTrailingSlash(a), SingleJoiningSlash(a, b);
      && (|a'| == 0 || r[|a'| - 1] != '/')
      && (|a'| + 1 == |r| || r[|a'| + 1] != '/')
  {
    var a', b' := TrimTrailingSlash(a), TrimLeadingSlash(b);
    var r := SingleJoiningSlash(a, b);
    if |a'| > 0 {
      assert r[|a'| - 1] == a'[|a'| - 1];
      if EndsWithSlash(a) {
        assert a[|a| - 2..] == [a[|a| - 2], a[|a| - 1]];
      }
    }
    if |b'| > 0 {
      assert r[|a'| + 1] == b'[0];
      if StartsWithSlash(b) {
        assert b[..2] == [b[0], b[1]];
      }
    }
  }

  /** The guarantee stops there: a target path ending in `//` keeps one of its slashes, and `//` survives the join. */
  lemma DoubleSlashSurvives()
    ensures SingleJoiningSlash("/x//", "y") == "/x//y"
    ensures SingleJoiningSlash("", "") == "/"
    ensures SingleJoiningSlash("/app", "/p") == "/app/p"
    ensures SingleJoiningSlash("/app/", "/p") == "/app/p"
  {
  }
}
