/** `matchesAllowedSite`: decides whether the widget belongs on a page, from
    the configured site patterns.  A pattern with `*` is turned into the
    anchored regular expression `^...$` with `*` read as `.*` and every other
    character escaped; the model reads such a pattern as a glob.  URL parsing
    is an oracle: `host` is `new URL(url).host`, or `None` when it throws. */
module SiteMatch {
  import opened Wrappers
  import opened Strings

  /** Anchored glob match: `*` stands for any run of characters other than
      line terminators, every other character for itself. */
  predicate GlobMatch(pat: string, s: string)
    ensures GlobMatch(pat, s) ==> |pat| <= |s| + StarCount(pat)
    decreases |pat| + |s|
  {
    if pat == [] then s == []
    else if pat[0] == '*' then
      GlobMatch(pat[1..], s) || (s != [] && !IsLineTerminator(s[0]) && GlobMatch(pat, s[1..]))
    else s != [] && s[0] == pat[0] && GlobMatch(pat[1..], s[1..])
  }

  function StarCount(pat: string): nat {
    if pat == [] then 0 else (if pat[0] == '*' then 1 else 0) + StarCount(pat[1..])
  }

  /** The string obtained by replacing the i-th `*` of `pat` with `fills[i]`. */
  function Fill(pat: string, fills: seq<string>): string
    requires |fills| == StarCount(pat)
  {
    if pat == [] then ""
    else if pat[0] == '*' then fills[0] + Fill(pat[1..], fills[1..])
    else [pat[0]] + Fill(pat[1..], fills)
  }

  /** A leading `*` absorbs any line-terminator-free prefix. */
  lemma {:induction false} StarAbsorbs(pat: string, w: string, t: string)
    requires pat != [] && pat[0] == '*'
    requires FreeOfLineTerminators(w)
    requires GlobMatch(pat[1..], t)
    ensures GlobMatch(pat, w + t)
    decreases |w|
  {
    if w != [] {
      StarAbsorbs(pat, w[1..], t);
      assert (w + t)[1..] == w[1..] + t;
      assert (w + t)[0] == w[0] && !IsLineTerminator(w[0]);
    } else {
      assert w + t == t;
    }
  }

  /** Completeness: every instance of a pattern matches it. */
  lemma {:induction false} GlobMatchesFill(pat: string, fills: seq<string>)
    requires |fills| == StarCount(pat)
    requires forall i :: 0 <= i < |fills| ==> FreeOfLineTerminators(fills[i])
    ensures GlobMatch(pat, Fill(pat, fills))
    decreases |pat|
  {
    if pat != [] {
      if pat[0] == '*' {
        GlobMatchesFill(pat[1..], fills[1..]);
        StarAbsorbs(pat, fills[0], Fill(pat[1..], fills[1..]));
      } else {
        GlobMatchesFill(pat[1..], fills);
        assert ([pat[0]] + Fill(pat[1..], fills))[1..] == Fill(pat[1..], fills);
      }
    }
  }

  /** Soundness: a matched string is an instance of the pattern, and this
      function returns the replacements of the stars. */
  function GlobWitness(pat: string, s: string): (fills: seq<string>)
    requires GlobMatch(pat, s)
    ensures |fills| == StarCount(pat)
    ensures forall i :: 0 <= i < |fills| ==> FreeOfLineTerminators(fills[i])
    ensures Fill(pat, fills) == s
    decreases |pat| + |s|
  {
    if pat == [] then []
    else if pat[0] == '*' then
      if GlobMatch(pat[1..], s) then
        var f := GlobWitness(pat[1..], s);
        FillStar(pat, "", f);
        [""] + f
      else
        var f := GlobWitness(pat, s[1..]);
        var first := [s[0]] + f[0];
        FillStar(pat, first, f[1..]);
        FillStar(pat, f[0], f[1..]);
        assert [f[0]] + f[1..] == f;
        assert s == [s[0]] + s[1..];
        [first] + f[1..]
    else
      var f := GlobWitness(pat[1..], s[1..]);
      assert s == [s[0]] + s[1..];
      f
  }

  /** Filling a leading star. */
  lemma FillStar(pat: string, x: string, f: seq<string>)
    requires pat != [] && pat[0] == '*' && |f| + 1 == StarCount(pat)
    ensures Fill(pat, [x] + f) == x + Fill(pat[1..], f)
  {
    assert ([x] + f)[1..] == f;
  }

  /** A lone `*` is `^.*$`: it matches exactly the strings without line
      terminators. */
  lemma {:induction false} StarMatchesLine(s: string)
    ensures GlobMatch("*", s) <==> FreeOfLineTerminators(s)
    decreases |s|
  {
    assert "*"[1..] == "";
    if s != [] {
      StarMatchesLine(s[1..]);
      assert forall k :: 1 <= k < |s| ==> s[k] == s[1..][k - 1];
    }
  }

  /** A pattern without `*` matches exactly itself. */
  lemma {:induction false} GlobLiteral(pat: string, s: string)
    requires '*' !in pat
    ensures GlobMatch(pat, s) <==> s == pat
    decreases |pat|
  {
    if pat != [] {
      if s != [] {
        GlobLiteral(pat[1..], s[1..]);
        assert s == [s[0]] + s[1..];
        assert pat == [pat[0]] + pat[1..];
      }
    }
  }

  /** One configured pattern matched against the URL and its host. */
  predicate PatternMatches(p: string, url: string, host: string) {
    if '*' in p then GlobMatch(p, host) || GlobMatch(p, url) else Contains(url, p)
  }

  /** The heuristic used when no pattern is configured: the URL mentions
      `n8n`, `/workflow`, `/editor` or `/#/workflow`, ignoring case. */
  predicate LooksLikeEditor(url: string) {
    var lower := ToLowerAscii(url);
    Contains(lower, "n8n") || Contains(lower, "/workflow") || Contains(lower, "/editor")
    || Contains(lower, "/#/workflow")
  }

  /** `patterns.some(...)` inside the `try`: patterns are tried in order, and
      the first pattern with `*` aborts the whole test when the URL does not
      parse. */
  function AnyPatternMatches(url: string, patterns: seq<string>, host: Option<string>): (r: bool)
    ensures host.Some? ==>
      (r <==> exists i :: 0 <= i < |patterns| && PatternMatches(patterns[i], url, host.value))
    ensures host.None? ==>
      (r <==> exists i :: 0 <= i < |patterns| && Contains(url, patterns[i]) &&
                (forall j :: 0 <= j <= i ==> '*' !in patterns[j]))
  {
    if patterns == [] then false
    else
      var p := patterns[0];
      var rest := AnyPatternMatches(url, patterns[1..], host);
      assert forall i :: 1 <= i < |patterns| ==> patterns[1..][i - 1] == patterns[i];
      if '*' in p then
        match host
        case None => false
        case Some(h) => GlobMatch(p, h) || GlobMatch(p, url) || rest
      else Contains(url, p) || rest
  }

  /** `matchesAllowedSite(url, patterns)`; the model covers patterns without
      `?`, the one regular-expression character the source leaves unescaped. */
  function MatchesAllowedSite(url: string, patterns: seq<string>, host: Option<string>): (r: bool)
    requires forall i :: 0 <= i < |patterns| ==> '?' !in patterns[i]
    ensures patterns == [] ==> (r <==> LooksLikeEditor(url))
    ensures patterns != [] && host.Some? ==>
      (r <==> exists i :: 0 <= i < |patterns| && PatternMatches(patterns[i], url, host.value))
    ensures patterns != [] && host.None? && (forall i :: 0 <= i < |patterns| ==> '*' in patterns[i]) ==> !r
  {
    if patterns == [] then LooksLikeEditor(url) else AnyPatternMatches(url, patterns, host)
  }
}
