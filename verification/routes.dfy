/** `buildRouteCandidates`: the editor URLs tried, in turn, to open a blank
    canvas.  The base path is what the page path has before its first
    `/workflow`, `/workflows` or `/editor` segment, which keeps n8n
    instances served under a sub-path working. */
module Routes {
  import opened Wrappers
  import opened Strings

  /** The parts of `new URL(location.href)` the content script reads. */
  datatype Url = Url(origin: string, host: string, pathname: string, hash: string)

  const RouteSuffixes: seq<string> := [
    "/workflow/new", "/workflows/new", "/#/workflow/new", "/#/workflows/new",
    "/editor/workflow/new", "/editor/#/workflow/new"
  ]

  /** The candidates when the page URL does not parse. */
  const RelativeRoutes: seq<string> := ["/workflow/new", "/workflows/new", "/#/workflow/new", "/#/workflows/new"]

  /** `\w` */
  predicate IsWordChar(c: char) {
    ('a' <= c <= 'z') || ('A' <= c <= 'Z') || ('0' <= c <= '9') || c == '_'
  }

  /** `kw` occurs at `j` and is followed by a word boundary (`\b`); every
      keyword ends in a word character, so the boundary is the end of the
      path or a non-word character. */
  predicate KeywordMatch(p: string, j: nat, kw: string) {
    j + |kw| <= |p| && p[j..j + |kw|] == kw && (j + |kw| == |p| || !IsWordChar(p[j + |kw|]))
  }

  /** `\/(workflow|workflows|editor)\b` matches at `j`. */
  predicate KeywordAt(p: string, j: nat) {
    KeywordMatch(p, j, "/workflow") || KeywordMatch(p, j, "/workflows") || KeywordMatch(p, j, "/editor")
  }

  /** The first keyword position at or after `j`, or `|p|` when there is none:
      where the lazy `(.*?)` stops. */
  function FirstKeyword(p: string, j: nat): (r: nat)
    requires j <= |p|
    ensures j <= r <= |p|
    ensures forall k :: j <= k < r ==> !KeywordAt(p, k)
    ensures r < |p| ==> KeywordAt(p, r)
    decreases |p| - j
  {
    if j == |p| || KeywordAt(p, j) then j else FirstKeyword(p, j + 1)
  }

  /** The first capture of `/^(.*?)(?:\/(workflow|workflows|editor)\b.*)?$/`,
      or "" when the expression does not match: `.` does not match line
      terminators, so a path holding one gives "". */
  function BasePrefix(p: string): (r: string)
    ensures IsPrefix(r, p)
    ensures FreeOfLineTerminators(p) ==>
      && (forall k :: 0 <= k < |r| ==> !KeywordAt(p, k))
      && (|r| < |p| ==> KeywordAt(p, |r|))
    ensures !FreeOfLineTerminators(p) ==> r == ""
  {
    if FreeOfLineTerminators(p) then p[..FirstKeyword(p, 0)] else ""
  }

  /** `buildRouteCandidates()`; `url` is `None` when `new URL` throws. */
  function BuildRouteCandidates(url: Option<Url>): (r: seq<string>)
    ensures url.None? ==> r == RelativeRoutes
    ensures url.Some? ==> |r| == |RouteSuffixes| && forall i :: 0 <= i < |r| ==>
      r[i] == url.value.origin + BasePrefix(url.value.pathname) + RouteSuffixes[i]
  {
    match url
    case None => RelativeRoutes
    case Some(u) =>
      var base := u.origin + BasePrefix(u.pathname);
      seq(|RouteSuffixes|, i requires 0 <= i < |RouteSuffixes| => base + RouteSuffixes[i])
  }

  /** No two candidates coincide, so cycling through them visits as many
      distinct pages as there are candidates. */
  lemma CandidatesDistinct(url: Option<Url>)
    ensures NoDuplicates(BuildRouteCandidates(url))
  {
    var r := BuildRouteCandidates(url);
    if url.Some? {
      var base := url.value.origin + BasePrefix(url.value.pathname);
      forall i, j | 0 <= i < j < |r| ensures r[i] != r[j] {
        assert r[i][|base|..] == RouteSuffixes[i];
        assert r[j][|base|..] == RouteSuffixes[j];
      }
    }
  }

  /** `kw` starts with `/` and has no other `/`. */
  predicate IsSegment(kw: string) {
    |kw| >= 2 && kw[0] == '/' && forall k :: 1 <= k < |kw| ==> kw[k] != '/'
  }

  /** A keyword match starting before `n` in a path that continues with a
      `/` (or ends) at `n` lies wholly before `n`, so it carries over to any
      path with the same first `n` characters and a `/` (or end) at `n`. */
  lemma KeywordMatchCarries(p: string, q: string, n: nat, j: nat, kw: string)
    requires n <= |p| && n <= |q| && p[..n] == q[..n]
    requires n == |p| || p[n] == '/'
    requires n == |q| || q[n] == '/'
    requires j < n && IsSegment(kw)
    requires KeywordMatch(p, j, kw)
    ensures KeywordMatch(q, j, kw)
  {
    assert j + |kw| <= n;
    assert p[j..j + |kw|] == p[..n][j..j + |kw|];
    assert q[j..j + |kw|] == q[..n][j..j + |kw|];
    if j + |kw| < n {
      assert p[j + |kw|] == p[..n][j + |kw|] == q[j + |kw|];
    }
  }

  /** Two paths that agree on their first `n` characters and continue with a
      `/` (or end) at `n` agree on every keyword match that starts before `n`:
      a keyword cannot run across the `/` at `n`. */
  lemma KeywordMatchAgrees(p: string, q: string, n: nat, j: nat, kw: string)
    requires n <= |p| && n <= |q| && p[..n] == q[..n]
    requires n == |p| || p[n] == '/'
    requires n == |q| || q[n] == '/'
    requires j < n && IsSegment(kw)
    ensures KeywordMatch(p, j, kw) <==> KeywordMatch(q, j, kw)
  {
    if KeywordMatch(p, j, kw) {
      KeywordMatchCarries(p, q, n, j, kw);
    }
    if KeywordMatch(q, j, kw) {
      KeywordMatchCarries(q, p, n, j, kw);
    }
  }

  lemma KeywordStartsWithSlash(p: string, j: nat)
    requires KeywordAt(p, j)
    ensures j < |p| && p[j] == '/'
  {
    if KeywordMatch(p, j, "/workflow") {
      assert p[j..j + 9][0] == p[j];
    } else if KeywordMatch(p, j, "/workflows") {
      assert p[j..j + 10][0] == p[j];
    } else {
      assert p[j..j + 7][0] == p[j];
    }
  }

  lemma KeywordAtAgrees(p: string, q: string, n: nat, j: nat)
    requires n <= |p| && n <= |q| && p[..n] == q[..n]
    requires n == |p| || p[n] == '/'
    requires n == |q| || q[n] == '/'
    requires j < n
    ensures KeywordAt(p, j) <==> KeywordAt(q, j)
  {
    KeywordMatchAgrees(p, q, n, j, "/workflow");
    KeywordMatchAgrees(p, q, n, j, "/workflows");
    KeywordMatchAgrees(p, q, n, j, "/editor");
  }

  /** The path part (before `#`) of each candidate suffix. */
  function SuffixPath(i: nat): (r: string)
    requires i < |RouteSuffixes|
    ensures IsPrefix(r, RouteSuffixes[i])
  {
    match i
    case 0 => "/workflow/new"
    case 1 => "/workflows/new"
    case 2 => "/"
    case 3 => "/"
    case 4 => "/editor/workflow/new"
    case _ => "/editor/"
  }

  /** `kw` followed by a non-word character at the start of `s` is a keyword
      match right after whatever precedes `s`. */
  lemma KeywordMatchAfter(base: string, s: string, kw: string)
    requires |kw| < |s| && s[..|kw|] == kw && !IsWordChar(s[|kw|])
    ensures KeywordMatch(base + s, |base|, kw)
  {
    var q := base + s;
    assert q[|base|..|base| + |kw|] == s[..|kw|];
    assert q[|base| + |kw|] == s[|kw|];
  }

  /** A path-routed suffix opens with a keyword segment. */
  lemma KeywordAfter(base: string, i: nat)
    requires i < |RouteSuffixes| && i != 2 && i != 3
    ensures KeywordAt(base + SuffixPath(i), |base|)
    ensures FreeOfLineTerminators(SuffixPath(i))
    ensures SuffixPath(i)[0] == '/'
  {
    var s := SuffixPath(i);
    if i == 0 {
      KeywordMatchAfter(base, s, "/workflow");
    } else if i == 1 {
      KeywordMatchAfter(base, s, "/workflows");
    } else {
      KeywordMatchAfter(base, s, "/editor");
    }
  }

  lemma FreeConcat(a: string, b: string)
    requires FreeOfLineTerminators(a) && FreeOfLineTerminators(b)
    ensures FreeOfLineTerminators(a + b)
  {
    forall k | 0 <= k < |a + b| ensures !IsLineTerminator((a + b)[k]) {
      if k >= |a| {
        assert (a + b)[k] == b[k - |a|];
      }
    }
  }

  /** Appending to the base path a segment that opens with a keyword gives a
      path whose base path is the same. */
  lemma BasePrefixOfExtension(p: string, s: string)
    requires s != [] && s[0] == '/' && FreeOfLineTerminators(s)
    requires KeywordAt(BasePrefix(p) + s, |BasePrefix(p)|)
    ensures BasePrefix(BasePrefix(p) + s) == BasePrefix(p)
  {
    var base := BasePrefix(p);
    var q := base + s;
    assert q[..|base|] == base;
    assert q[|base|] == '/';
    if FreeOfLineTerminators(p) {
      assert FreeOfLineTerminators(base) by {
        forall k | 0 <= k < |base| ensures !IsLineTerminator(base[k]) {
          assert base[k] == p[k];
        }
      }
      FreeConcat(base, s);
      assert p[..|base|] == base;
      if |base| < |p| {
        KeywordStartsWithSlash(p, |base|);
      }
      forall k | 0 <= k < |base| ensures !KeywordAt(q, k) {
        KeywordAtAgrees(p, q, |base|, k);
      }
      var f := FirstKeyword(q, 0);
      assert f == |base|;
    } else {
      assert q == s;
    }
  }

  /** After navigating to a path-routed candidate (suffixes 0, 1, 4 and 5),
      the base path computed on the new page is the one it was built from. */
  lemma BasePrefixStable(p: string, i: nat)
    requires i < |RouteSuffixes| && i != 2 && i != 3
    ensures BasePrefix(BasePrefix(p) + SuffixPath(i)) == BasePrefix(p)
  {
    KeywordAfter(BasePrefix(p), i);
    BasePrefixOfExtension(p, SuffixPath(i));
  }

  /** Navigating to a path-routed candidate and rebuilding the candidates on
      arrival reproduces the same list. */
  lemma CandidatesStable(u: Url, i: nat, host: string, hash: string)
    requires i < |RouteSuffixes| && i != 2 && i != 3
    ensures
      var v := Url(u.origin, host, BasePrefix(u.pathname) + SuffixPath(i), hash);
      BuildRouteCandidates(Some(v)) == BuildRouteCandidates(Some(u))
  {
    BasePrefixStable(u.pathname, i);
  }
}
