/** The options page: `load` fills the form from `chrome.storage.sync` over
    the defaults, `save` writes the form back (the `allowedSites` textarea
    split into one pattern per line), `reset` restores the defaults.
    Storage is a record of optional values; the form is a record of field
    texts.  The temperature field is parsed with `parseFloat` and is not
    part of this model. */
module Options {
  import opened Wrappers
  import opened Strings

  const DefaultProvider := "openai"
  const DefaultApiBase := "https://api.openai.com/v1"
  const DefaultModel := "gpt-5"
  const DefaultCreateMethod := "ui"
  const DefaultSites: seq<string> := ["https://n8n.ai4teams.de", "https://n8n.*", "n8n*", "localhost", "127.0.0.1"]

  /** The text of each form field. */
  datatype Form = Form(provider: string, apiBase: string, model: string, apiKey: string,
                       createMethod: string, allowedSites: string)

  /** The stored settings; `None` for a key that is not in storage. */
  datatype Stored = Stored(provider: Option<string>, apiBase: Option<string>, model: Option<string>,
                           apiKey: Option<string>, createMethod: Option<string>,
                           allowedSites: Option<seq<string>>)

  /** `s || d` for strings. */
  function OrDefault(s: string, d: string): (r: string)
    ensures s != "" ==> r == s
    ensures s == "" ==> r == d
  {
    if s == "" then d else s
  }

  /** Drops the `\n` characters at the front. */
  function DropNewlines(s: string): (r: string)
    ensures r == [] || r[0] != '\n'
    ensures |r| <= |s| && r == s[|s| - |r|..]
    ensures forall k :: 0 <= k < |s| - |r| ==> s[k] == '\n'
  {
    if s != [] && s[0] == '\n' then DropNewlines(s[1..]) else s
  }

  /** The text with every run of newlines collapsed to a single one. */
  function SquashNewlines(s: string): (r: string)
    ensures |r| <= |s|
    decreases |s|
  {
    if s == [] then []
    else if s[0] == '\n' && |s| > 1 && s[1] == '\n' then SquashNewlines(s[1..])
    else [s[0]] + SquashNewlines(s[1..])
  }

  /** Squashing passes a newline-free prefix through unchanged. */
  lemma {:induction false} SquashNewlineFree(x: string, t: string)
    requires '\n' !in x
    ensures SquashNewlines(x + t) == x + SquashNewlines(t)
    decreases |x|
  {
    if x != [] {
      assert (x + t)[0] == x[0];
      assert (x + t)[1..] == x[1..] + t;
      SquashNewlineFree(x[1..], t);
    } else {
      assert x + t == t;
    }
  }

  /** A run of newlines squashes to one newline. */
  lemma {:induction false} SquashRun(t: string)
    requires |t| > 0 && t[0] == '\n'
    ensures SquashNewlines(t) == "\n" + SquashNewlines(DropNewlines(t[1..]))
    decreases |t|
  {
    if |t| > 1 && t[1] == '\n' {
      SquashRun(t[1..]);
      assert t[1..][1..] == t[2..];
    }
  }

  /** `s.split(/\n+/)`: cut at every maximal run of newlines.  The pieces are
      newline-free and, joined with single newlines, give back the text with
      its newline runs collapsed, so they are the text's lines in order. */
  function SplitNewlineRuns(s: string): (r: seq<string>)
    ensures |r| >= 1
    ensures forall i :: 0 <= i < |r| ==> '\n' !in r[i]
    ensures Join(r, "\n") == SquashNewlines(s)
    decreases |s|
  {
    match IndexOf(s, '\n')
    case None =>
      SquashNewlineFree(s, []);
      assert s + [] == s;
      [s]
    case Some(i) =>
      var rest := SplitNewlineRuns(DropNewlines(s[i + 1..]));
      SplitStep(s, i, rest);
      [s[..i]] + rest
  }

  /** One cut of the split: the line before the first newline, then the
      pieces of what follows the newline run. */
  lemma SplitStep(s: string, i: nat, rest: seq<string>)
    requires i < |s| && s[i] == '\n' && '\n' !in s[..i]
    requires |rest| >= 1 && Join(rest, "\n") == SquashNewlines(DropNewlines(s[i + 1..]))
    ensures Join([s[..i]] + rest, "\n") == SquashNewlines(s)
  {
    JoinCons(s[..i], rest, "\n");
    SquashAt(s, i);
  }

  /** Squashing keeps the first line and its newline, then squashes what
      follows the newline run. */
  lemma SquashAt(s: string, i: nat)
    requires i < |s| && s[i] == '\n' && '\n' !in s[..i]
    ensures SquashNewlines(s) == s[..i] + "\n" + SquashNewlines(DropNewlines(s[i + 1..]))
  {
    assert s == s[..i] + s[i..];
    SquashNewlineFree(s[..i], s[i..]);
    SquashRun(s[i..]);
    assert s[i..][1..] == s[i + 1..];
  }

  /** The split at a first newline. */
  lemma SplitAt(s: string, i: nat)
    requires i < |s| && s[i] == '\n' && '\n' !in s[..i]
    ensures SplitNewlineRuns(s) == [s[..i]] + SplitNewlineRuns(DropNewlines(s[i + 1..]))
  {
    IndexOfIs(s, '\n', i);
  }

  /** `.map((s) => s.trim()).filter(Boolean)` */
  function TrimAndDropEmpty(parts: seq<string>): (r: seq<string>)
    ensures |r| <= |parts|
    ensures forall i :: 0 <= i < |r| ==> r[i] != "" && IsTrimmed(r[i])
    ensures (forall i :: 0 <= i < |parts| ==> '\n' !in parts[i]) ==> forall i :: 0 <= i < |r| ==> '\n' !in r[i]
    ensures |parts| == 1 ==> r == (if Trim(parts[0]) == "" then [] else [Trim(parts[0])])
  {
    if parts == [] then []
    else
      var t := Trim(parts[0]);
      var rest := TrimAndDropEmpty(parts[1..]);
      assert forall i :: 0 <= i < |parts| - 1 ==> parts[1..][i] == parts[i + 1];
      assert |parts| == 1 ==> rest == [] by {
        if |parts| == 1 {
          assert parts[1..] == [];
        }
      }
      if t == "" then rest
      else
        var noBreak := forall i :: 0 <= i < |parts| ==> '\n' !in parts[i];
        assert noBreak ==> '\n' !in t by {
          if noBreak { TrimNoNewline(parts[0]); }
        }
        KeepEntry(t, rest, noBreak);
        [t] + rest
  }

  /** Trimming and filtering distributes over concatenation: the kept
      entries stay in order. */
  lemma {:induction false} TrimAndDropEmptyAppend(a: seq<string>, b: seq<string>)
    ensures TrimAndDropEmpty(a + b) == TrimAndDropEmpty(a) + TrimAndDropEmpty(b)
    decreases |a|
  {
    if a == [] {
      assert a + b == b;
    } else {
      assert (a + b)[1..] == a[1..] + b;
      TrimAndDropEmptyAppend(a[1..], b);
    }
  }

  /** Keeping a non-empty trimmed entry in front of kept entries keeps
      every entry non-empty, trimmed and, when all were, free of line breaks. */
  lemma KeepEntry(t: string, rest: seq<string>, noBreak: bool)
    requires t != "" && IsTrimmed(t)
    requires forall i :: 0 <= i < |rest| ==> rest[i] != "" && IsTrimmed(rest[i])
    requires noBreak ==> '\n' !in t && forall i :: 0 <= i < |rest| ==> '\n' !in rest[i]
    ensures forall i :: 0 <= i < |[t] + rest| ==> ([t] + rest)[i] != "" && IsTrimmed(([t] + rest)[i])
    ensures noBreak ==> forall i :: 0 <= i < |[t] + rest| ==> '\n' !in ([t] + rest)[i]
  {
    var r := [t] + rest;
    assert forall i :: 1 <= i < |r| ==> r[i] == rest[i - 1];
  }

  /** Trimming never introduces a line break. */
  lemma TrimNoNewline(x: string)
    requires '\n' !in x
    ensures '\n' !in Trim(x)
  {
    TrimIsInfix(x);
  }

  /** A trimmed string is drawn from the string it was trimmed from. */
  lemma TrimIsInfix(s: string)
    ensures forall c :: c in Trim(s) ==> c in s
  {
    var a := TrimStart(s);
    var b := TrimEnd(a);
    forall c | c in b ensures c in s {
      var k :| 0 <= k < |b| && b[k] == c;
      assert b[k] == a[k];
      assert a[k] == s[|s| - |a| + k];
    }
  }

  /** The `allowedSites` parse of `save`. */
  function ParseAllowedSites(text: string): (r: seq<string>)
    ensures forall i :: 0 <= i < |r| ==> r[i] != "" && IsTrimmed(r[i]) && '\n' !in r[i]
    ensures '\n' !in text ==> r == LineEntry(text)
  {
    TrimAndDropEmpty(SplitNewlineRuns(text))
  }

  /** The entry one line contributes: its trimmed text, unless blank. */
  function LineEntry(line: string): seq<string> {
    if Trim(line) == "" then [] else [Trim(line)]
  }

  /** The textarea is read line by line: the first line contributes its
      entry, and the rest of the text (leading newlines included) is parsed
      on its own. */
  lemma ParseAllowedSitesLines(a: string, b: string)
    requires '\n' !in a
    ensures ParseAllowedSites(a + "\n" + b) == LineEntry(a) + ParseAllowedSites(b)
  {
    var s := a + "\n" + b;
    assert s[..|a|] == a;
    assert s[|a| + 1..] == b;
    SplitAt(s, |a|);
    var tail := SplitNewlineRuns(DropNewlines(b));
    TrimAndDropEmptyAppend([a], tail);
    ParseSkipsLeadingNewlines(b);
  }

  /** Newlines at the front of the text contribute no entry. */
  lemma ParseSkipsLeadingNewlines(b: string)
    ensures TrimAndDropEmpty(SplitNewlineRuns(b)) == TrimAndDropEmpty(SplitNewlineRuns(DropNewlines(b)))
  {
    if b != [] && b[0] == '\n' {
      var tail := SplitNewlineRuns(DropNewlines(b));
      LeadingNewlineSplit(b);
      TrimAndDropEmptyAppend([""], tail);
      assert TrimAndDropEmpty([""]) == [] by {
        assert Trim("") == "";
      }
      assert [] + TrimAndDropEmpty(tail) == TrimAndDropEmpty(tail);
    }
  }

  /** A text that starts with a newline splits into an empty first piece. */
  lemma LeadingNewlineSplit(b: string)
    requires b != [] && b[0] == '\n'
    ensures SplitNewlineRuns(b) == [""] + SplitNewlineRuns(DropNewlines(b))
  {
    SplitAt(b, 0);
    assert b[..0] == "";
    assert DropNewlines(b) == DropNewlines(b[1..]);
  }

  /** What `save` writes: every key is set, blank fields take their default,
      the API key is stored trimmed and may be empty. */
  function Save(form: Form): (r: Stored)
    ensures r.provider == Some(OrDefault(Trim(form.provider), DefaultProvider))
    ensures r.apiBase == Some(OrDefault(Trim(form.apiBase), DefaultApiBase))
    ensures r.model == Some(OrDefault(Trim(form.model), DefaultModel))
    ensures r.createMethod == Some(OrDefault(Trim(form.createMethod), DefaultCreateMethod))
    ensures r.apiKey == Some(Trim(form.apiKey))
    ensures r.allowedSites == Some(ParseAllowedSites(form.allowedSites))
    ensures r.provider.value != "" && r.apiBase.value != "" && r.model.value != "" && r.createMethod.value != ""
  {
    Stored(Some(OrDefault(Trim(form.provider), DefaultProvider)),
           Some(OrDefault(Trim(form.apiBase), DefaultApiBase)),
           Some(OrDefault(Trim(form.model), DefaultModel)),
           Some(Trim(form.apiKey)),
           Some(OrDefault(Trim(form.createMethod), DefaultCreateMethod)),
           Some(ParseAllowedSites(form.allowedSites)))
  }

  /** `load` as written: `chrome.storage.sync.get(Object.keys(DEFAULTS))`
      does not ask for `apiKey`, so the key field always comes up empty. */
  function LoadAsWritten(s: Stored): (f: Form)
    ensures f.apiKey == ""
    ensures f.provider == s.provider.GetOr(DefaultProvider)
    ensures f.apiBase == s.apiBase.GetOr(DefaultApiBase)
    ensures f.model == s.model.GetOr(DefaultModel)
    ensures f.createMethod == s.createMethod.GetOr(DefaultCreateMethod)
    ensures f.allowedSites == Join(s.allowedSites.GetOr(DefaultSites), "\n")
  {
    Form(s.provider.GetOr(DefaultProvider), s.apiBase.GetOr(DefaultApiBase), s.model.GetOr(DefaultModel),
         "", s.createMethod.GetOr(DefaultCreateMethod), Join(s.allowedSites.GetOr(DefaultSites), "\n"))
  }

  /** `load` with `apiKey` read as well: stored values win over the
      defaults, and the patterns are joined one per line. */
  function Load(s: Stored): (f: Form)
    ensures f.apiKey == s.apiKey.GetOr("")
    ensures f == LoadAsWritten(s).(apiKey := s.apiKey.GetOr(""))
  {
    LoadAsWritten(s).(apiKey := s.apiKey.GetOr(""))
  }

  /** `reset`: write the defaults, then remove the API key. */
  function Reset(s: Stored): (r: Stored)
    ensures r.apiKey.None?
    ensures Load(r) == Form(DefaultProvider, DefaultApiBase, DefaultModel, "", DefaultCreateMethod,
                            Join(DefaultSites, "\n"))
  {
    Stored(Some(DefaultProvider), Some(DefaultApiBase), Some(DefaultModel), None,
           Some(DefaultCreateMethod), Some(DefaultSites))
  }

  /** Entries as `save` stores them. */
  predicate CleanEntries(list: seq<string>) {
    forall i :: 0 <= i < |list| ==> list[i] != "" && IsTrimmed(list[i]) && '\n' !in list[i]
  }

  /** Showing a stored pattern list in the textarea and saving the text
      unchanged gives the same list back. */
  lemma {:induction false} ParseJoinRoundTrip(list: seq<string>)
    requires CleanEntries(list)
    ensures ParseAllowedSites(Join(list, "\n")) == list
    decreases |list|
  {
    if list == [] {
      assert Join(list, "\n") == "";
      assert Trim("") == "";
      assert LineEntry("") == [];
    } else if |list| == 1 {
      var x := list[0];
      assert Join(list, "\n") == x;
      TrimOfTrimmed(x);
      assert LineEntry(x) == [x];
    } else {
      var x := list[0];
      var rest := list[1..];
      assert list == [x] + rest;
      assert forall i :: 0 <= i < |rest| ==> rest[i] == list[i + 1];
      var text := Join(rest, "\n");
      assert Join(list, "\n") == x + "\n" + text;
      ParseAllowedSitesLines(x, text);
      ParseJoinRoundTrip(rest);
      TrimOfTrimmed(x);
    }
  }

  /** The newline-joined text of clean entries starts with the first entry's
      first character, never a newline. */
  lemma JoinStart(list: seq<string>)
    requires |list| >= 1 && CleanEntries(list)
    ensures var j := Join(list, "\n"); j != [] && j[0] == list[0][0] && j[0] != '\n'
  {
    assert IsWhitespace('\n');
  }

  /** A field value `save` stored comes back unchanged from a second save. */
  lemma ResaveField(v: string, d: string)
    requires v != "" && IsTrimmed(v)
    ensures OrDefault(Trim(v), d) == v
  {
    TrimOfTrimmed(v);
  }

  /** Saving, loading and saving again stores what the first save stored:
      the options page round-trips its own settings. */
  lemma SaveLoadSave(form: Form)
    ensures Save(Load(Save(form))) == Save(form)
  {
    var s := Save(form);
    var f := Load(s);
    TrimIsTrimmedDefaults();
    ResaveField(s.provider.value, DefaultProvider);
    ResaveField(s.apiBase.value, DefaultApiBase);
    ResaveField(s.model.value, DefaultModel);
    ResaveField(s.createMethod.value, DefaultCreateMethod);
    TrimOfTrimmed(s.apiKey.value);
    ParseJoinRoundTrip(s.allowedSites.value);
    assert f.provider == s.provider.value && f.apiBase == s.apiBase.value && f.model == s.model.value;
    assert f.createMethod == s.createMethod.value && f.apiKey == s.apiKey.value;
    assert f.allowedSites == Join(s.allowedSites.value, "\n");
  }

  /** As written, the same round trip stores everything the first save
      stored except the API key, which comes back empty. */
  lemma SaveLoadAsWrittenSave(form: Form)
    ensures Save(LoadAsWritten(Save(form))) == Save(form).(apiKey := Some(""))
  {
    var s := Save(form);
    SaveLoadSave(form);
    assert LoadAsWritten(s) == Load(s).(apiKey := "");
    assert Trim("") == "";
  }

  /** A store every key of which holds a value `save` could have written. */
  predicate SavedShape(s: Stored) {
    && s.provider.Some? && s.provider.value != "" && IsTrimmed(s.provider.value)
    && s.apiBase.Some? && s.apiBase.value != "" && IsTrimmed(s.apiBase.value)
    && s.model.Some? && s.model.value != "" && IsTrimmed(s.model.value)
    && s.createMethod.Some? && s.createMethod.value != "" && IsTrimmed(s.createMethod.value)
    && s.apiKey.Some? && IsTrimmed(s.apiKey.value)
    && s.allowedSites.Some? && CleanEntries(s.allowedSites.value)
  }

  /** Loading a store of that shape into the form and saving it unchanged
      writes the same store back. */
  lemma LoadSaveRoundTrip(s: Stored)
    requires SavedShape(s)
    ensures Save(Load(s)) == s
  {
    ResaveField(s.provider.value, DefaultProvider);
    ResaveField(s.apiBase.value, DefaultApiBase);
    ResaveField(s.model.value, DefaultModel);
    ResaveField(s.createMethod.value, DefaultCreateMethod);
    TrimOfTrimmed(s.apiKey.value);
    ParseJoinRoundTrip(s.allowedSites.value);
  }

  lemma TrimIsTrimmedDefaults()
    ensures IsTrimmed(DefaultProvider) && IsTrimmed(DefaultApiBase) && IsTrimmed(DefaultModel)
    ensures IsTrimmed(DefaultCreateMethod)
  {
  }

  /** As written, opening the options page and saving without touching the
      key field erases a stored API key. */
  lemma SaveAfterLoadAsWrittenErasesKey(s: Stored)
    requires s.apiKey.Some? && s.apiKey.value != ""
    ensures Save(LoadAsWritten(s)).apiKey == Some("")
    ensures Save(LoadAsWritten(s)).apiKey != s.apiKey
  {
    assert Trim("") == "";
  }

  /** With `apiKey` loaded, the same round trip keeps a stored key. */
  lemma SaveAfterLoadKeepsKey(s: Stored)
    requires s.apiKey.Some? && IsTrimmed(s.apiKey.value)
    ensures Save(Load(s)).apiKey == s.apiKey
  {
    TrimOfTrimmed(s.apiKey.value);
  }
}
