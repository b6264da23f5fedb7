/** The escaping and list passes of `markdownToHTML`, which renders the
    model's answers in the chat panel.  The text is HTML-escaped first, so
    every `<` in the result belongs to a tag the renderer inserted; the
    list pass then groups `- ` / `* ` lines and `1. ` lines into `<ul>` and
    `<ol>` blocks. */
module Markdown {
  import opened Wrappers
  import opened Strings

  // ---------------------------------------------------------------------
  // Escaping
  // ---------------------------------------------------------------------

  function EscapeChar(c: char): string {
    if c == '&' then "&amp;" else if c == '<' then "&lt;" else if c == '>' then "&gt;" else [c]
  }

  /** The three `replace` calls, read as one character-by-character mapping. */
  function EscapeHtml(s: string): (r: string)
    ensures '<' !in r && '>' !in r
    ensures |r| >= |s|
    ensures ('&' !in s && '<' !in s && '>' !in s) ==> r == s
  {
    if s == [] then [] else EscapeChar(s[0]) + EscapeHtml(s[1..])
  }

  /** Decodes the three entities `EscapeHtml` produces. */
  function UnescapeHtml(s: string): string
    decreases |s|
  {
    if s == [] then []
    else if IsPrefix("&amp;", s) then "&" + UnescapeHtml(s[5..])
    else if IsPrefix("&lt;", s) then "<" + UnescapeHtml(s[4..])
    else if IsPrefix("&gt;", s) then ">" + UnescapeHtml(s[4..])
    else [s[0]] + UnescapeHtml(s[1..])
  }

  lemma UnescapeAmp(rest: string)
    ensures UnescapeHtml("&amp;" + rest) == "&" + UnescapeHtml(rest)
  {
    var e := "&amp;" + rest;
    assert e[..5] == "&amp;" && e[5..] == rest;
    assert IsPrefix("&amp;", e);
  }

  lemma UnescapeLt(rest: string)
    ensures UnescapeHtml("&lt;" + rest) == "<" + UnescapeHtml(rest)
  {
    var e := "&lt;" + rest;
    assert e[..4] == "&lt;" && e[4..] == rest;
    assert e[1] == 'l';
    assert |e| >= 5 ==> e[..5][1] == e[1];
    assert IsPrefix("&lt;", e);
  }

  lemma UnescapeGt(rest: string)
    ensures UnescapeHtml("&gt;" + rest) == ">" + UnescapeHtml(rest)
  {
    var e := "&gt;" + rest;
    assert e[..4] == "&gt;" && e[4..] == rest;
    assert e[1] == 'g';
    assert |e| >= 5 ==> e[..5][1] == e[1];
    assert e[..4][1] == e[1];
    assert IsPrefix("&gt;", e);
  }

  lemma UnescapeOther(c: char, rest: string)
    requires c != '&'
    ensures UnescapeHtml([c] + rest) == [c] + UnescapeHtml(rest)
  {
    var e := [c] + rest;
    assert e[0] == c && e[1..] == rest;
    assert !IsPrefix("&amp;", e) && !IsPrefix("&lt;", e) && !IsPrefix("&gt;", e) by {
      assert "&amp;"[0] == '&' && "&lt;"[0] == '&' && "&gt;"[0] == '&';
    }
  }

  /** Decoding one escaped character in front of any text. */
  lemma UnescapeChar(c: char, rest: string)
    ensures UnescapeHtml(EscapeChar(c) + rest) == [c] + UnescapeHtml(rest)
  {
    if c == '&' {
      UnescapeAmp(rest);
    } else if c == '<' {
      UnescapeLt(rest);
    } else if c == '>' {
      UnescapeGt(rest);
    } else {
      UnescapeOther(c, rest);
    }
  }

  /** Escaping loses nothing: decoding gives the original text back. */
  lemma {:induction false} EscapeRoundTrip(s: string)
    ensures UnescapeHtml(EscapeHtml(s)) == s
    decreases |s|
  {
    if s != [] {
      EscapeRoundTrip(s[1..]);
      UnescapeChar(s[0], EscapeHtml(s[1..]));
      assert s == [s[0]] + s[1..];
    }
  }

  /** `s.replace(/c/g, rep)` */
  function ReplaceChar(s: string, c: char, rep: string): (r: string)
    ensures c !in rep ==> c !in r
    ensures c !in s ==> r == s
  {
    if s == [] then [] else (if s[0] == c then rep else [s[0]]) + ReplaceChar(s[1..], c, rep)
  }

  lemma {:induction false} ReplaceCharAppend(a: string, b: string, c: char, rep: string)
    ensures ReplaceChar(a + b, c, rep) == ReplaceChar(a, c, rep) + ReplaceChar(b, c, rep)
    decreases |a|
  {
    if a == [] {
      assert a + b == b;
    } else {
      assert (a + b)[1..] == a[1..] + b;
      ReplaceCharAppend(a[1..], b, c, rep);
    }
  }

  function ReplaceThree(s: string): string {
    ReplaceChar(ReplaceChar(ReplaceChar(s, '&', "&amp;"), '<', "&lt;"), '>', "&gt;")
  }

  lemma ReplaceThreeAppend(a: string, b: string)
    ensures ReplaceThree(a + b) == ReplaceThree(a) + ReplaceThree(b)
  {
    ReplaceCharAppend(a, b, '&', "&amp;");
    var a1 := ReplaceChar(a, '&', "&amp;");
    var b1 := ReplaceChar(b, '&', "&amp;");
    ReplaceCharAppend(a1, b1, '<', "&lt;");
    ReplaceCharAppend(ReplaceChar(a1, '<', "&lt;"), ReplaceChar(b1, '<', "&lt;"), '>', "&gt;");
  }

  lemma ReplaceCharSingle(x: char, c: char, rep: string)
    ensures ReplaceChar([x], c, rep) == if x == c then rep else [x]
  {
    assert [x][1..] == [];
  }

  lemma ReplaceThreeChar(c: char)
    ensures ReplaceThree([c]) == EscapeChar(c)
  {
    ReplaceCharSingle(c, '&', "&amp;");
    if c == '&' {
      assert '<' !in "&amp;" && '>' !in "&amp;";
    } else if c == '<' {
      ReplaceCharSingle(c, '<', "&lt;");
      assert '>' !in "&lt;";
    } else {
      ReplaceCharSingle(c, '<', "&lt;");
      ReplaceCharSingle(c, '>', "&gt;");
    }
  }

  /** `&` is replaced first, then `<`, then `>`: in that order the three
      replacements never touch each other's output, so together they are
      the character-by-character escape. */
  lemma {:induction false} SequentialReplaceIsEscape(s: string)
    ensures ReplaceThree(s) == EscapeHtml(s)
    decreases |s|
  {
    if s != [] {
      assert s == [s[0]] + s[1..];
      SequentialReplaceIsEscape(s[1..]);
      ReplaceThreeAppend([s[0]], s[1..]);
      ReplaceThreeChar(s[0]);
    }
  }

  // ---------------------------------------------------------------------
  // The list pass
  // ---------------------------------------------------------------------

  /** One output line of the list pass. */
  datatype Token = OpenUl | CloseUl | OpenOl | CloseOl | Item(text: string) | Plain(text: string)

  /** `/^[\*\-] /` */
  predicate IsBulletLine(line: string) {
    |line| >= 2 && (line[0] == '*' || line[0] == '-') && line[1] == ' '
  }

  predicate IsDigit(c: char) {
    '0' <= c <= '9'
  }

  function LeadingDigits(line: string): (d: nat)
    ensures d <= |line|
    ensures forall k :: 0 <= k < d ==> IsDigit(line[k])
    ensures d < |line| ==> !IsDigit(line[d])
  {
    if line != [] && IsDigit(line[0]) then 1 + LeadingDigits(line[1..]) else 0
  }

  /** `/^[0-9]+\. /` */
  predicate IsOrderedLine(line: string) {
    var d := LeadingDigits(line);
    d >= 1 && d + 2 <= |line| && line[d] == '.' && line[d + 1] == ' '
  }

  /** `line.replace(/^[0-9]+\. /, '')` on an ordered line. */
  function OrderedItemText(line: string): (r: string)
    requires IsOrderedLine(line)
    ensures |r| + 3 <= |line| && r == line[|line| - |r|..]
  {
    line[LeadingDigits(line) + 2..]
  }

  /** The text of a bullet or ordered item. */
  function ItemText(line: string): (r: string)
    requires IsBulletLine(line) || IsOrderedLine(line)
    ensures |r| < |line| && r == line[|line| - |r|..]
  {
    if IsBulletLine(line) then line[2..] else OrderedItemText(line)
  }

  function CloseIf(open: bool, tok: Token): seq<Token> {
    if open then [tok] else []
  }

  /** The text a line contributes: the item text of a list line, the line
      itself otherwise. */
  function LineText(line: string): (r: string)
    ensures |r| <= |line| && r == line[|line| - |r|..]
  {
    if IsBulletLine(line) || IsOrderedLine(line) then ItemText(line) else line
  }

  /** The texts of the item and plain tokens, in order; tags carry none. */
  function Texts(toks: seq<Token>): seq<string> {
    if toks == [] then []
    else (if toks[0].Item? || toks[0].Plain? then [toks[0].text] else []) + Texts(toks[1..])
  }

  predicate AllTags(toks: seq<Token>) {
    forall i :: 0 <= i < |toks| ==> !toks[i].Item? && !toks[i].Plain?
  }

  lemma {:induction false} TextsAppend(a: seq<Token>, b: seq<Token>)
    ensures Texts(a + b) == Texts(a) + Texts(b)
    decreases |a|
  {
    if a == [] {
      assert a + b == b;
    } else {
      assert (a + b)[1..] == a[1..] + b;
      TextsAppend(a[1..], b);
    }
  }

  lemma {:induction false} TagsHaveNoText(toks: seq<Token>)
    requires AllTags(toks)
    ensures Texts(toks) == []
    decreases |toks|
  {
    if toks != [] {
      TagsHaveNoText(toks[1..]);
    }
  }

  /** Tags, one text token, then the rest: the text comes first. */
  lemma TextsStep(head: seq<Token>, tok: Token, tail: seq<Token>)
    requires AllTags(head) && (tok.Item? || tok.Plain?)
    ensures Texts(head + [tok] + tail) == [tok.text] + Texts(tail)
  {
    TextsAppend(head + [tok], tail);
    TextsAppend(head, [tok]);
    TagsHaveNoText(head);
    assert [tok][1..] == [];
  }

  /** One line of the pass: its tags, then its text, then the texts of the
      rest of the lines. */
  lemma LineTextsStep(line: string, rest: seq<string>, head: seq<Token>, tok: Token, tail: seq<Token>)
    requires AllTags(head) && (tok.Item? || tok.Plain?) && tok.text == LineText(line)
    requires |Texts(tail)| == |rest|
    requires forall i :: 0 <= i < |rest| ==> Texts(tail)[i] == LineText(rest[i])
    ensures |Texts(head + [tok] + tail)| == |[line] + rest|
    ensures forall i :: 0 <= i < |[line] + rest| ==> Texts(head + [tok] + tail)[i] == LineText(([line] + rest)[i])
  {
    TextsStep(head, tok, tail);
  }

  /** Every text token's text is among the texts, at the returned index. */
  lemma {:induction false} TextTokenIndex(toks: seq<Token>, t: Token) returns (i: nat)
    requires t in toks && (t.Item? || t.Plain?)
    ensures i < |Texts(toks)| && Texts(toks)[i] == t.text
    decreases |toks|
  {
    var first := if toks[0].Item? || toks[0].Plain? then [toks[0].text] else [];
    assert Texts(toks) == first + Texts(toks[1..]);
    if toks[0] == t {
      i := 0;
    } else {
      var j := TextTokenIndex(toks[1..], t);
      i := |first| + j;
    }
  }

  /** The loop of the list pass as the source has it, from state
      (`inUList`, `inOList`), including the closing of lists left open at the
      end.  A bullet line does not close an open ordered list, nor an
      ordered line an open bullet list. */
  function ListPassAsWritten(lines: seq<string>, inU: bool, inO: bool): (r: seq<Token>)
    ensures |Texts(r)| == |lines|
    ensures forall i :: 0 <= i < |lines| ==> Texts(r)[i] == LineText(lines[i])
    decreases |lines|
  {
    if lines == [] then
      TagsHaveNoText(CloseIf(inU, CloseUl) + CloseIf(inO, CloseOl));
      CloseIf(inU, CloseUl) + CloseIf(inO, CloseOl)
    else
      var line := lines[0];
      var rest := lines[1..];
      assert lines == [line] + rest;
      if IsBulletLine(line) then
        var tail := ListPassAsWritten(rest, true, inO);
        LineTextsStep(line, rest, if inU then [] else [OpenUl], Item(line[2..]), tail);
        (if inU then [] else [OpenUl]) + [Item(line[2..])] + tail
      else if IsOrderedLine(line) then
        var tail := ListPassAsWritten(rest, inU, true);
        LineTextsStep(line, rest, if inO then [] else [OpenOl], Item(OrderedItemText(line)), tail);
        (if inO then [] else [OpenOl]) + [Item(OrderedItemText(line))] + tail
      else
        var tail := ListPassAsWritten(rest, false, false);
        LineTextsStep(line, rest, CloseIf(inU, CloseUl) + CloseIf(inO, CloseOl), Plain(line), tail);
        CloseIf(inU, CloseUl) + CloseIf(inO, CloseOl) + [Plain(line)] + tail
  }

  /** The list pass with a switch of list kind closing the other list first,
      so that tags nest.  At most one list is open at a time. */
  function ListPass(lines: seq<string>, inU: bool, inO: bool): seq<Token>
    requires !(inU && inO)
    decreases |lines|
  {
    if lines == [] then CloseIf(inU, CloseUl) + CloseIf(inO, CloseOl)
    else
      var line := lines[0];
      if IsBulletLine(line) then
        CloseIf(inO, CloseOl) + (if inU then [] else [OpenUl]) + [Item(line[2..])]
        + ListPass(lines[1..], true, false)
      else if IsOrderedLine(line) then
        CloseIf(inU, CloseUl) + (if inO then [] else [OpenOl]) + [Item(OrderedItemText(line))]
        + ListPass(lines[1..], false, true)
      else
        CloseIf(inU, CloseUl) + CloseIf(inO, CloseOl) + [Plain(line)] + ListPass(lines[1..], false, false)
  }

  datatype ListKind = Bullets | Numbers

  /** One token against the stack of open lists: `None` when it closes a list
      that is not the innermost open one, is an item outside any list, or is
      a plain line inside one. */
  function Step(t: Token, stack: seq<ListKind>): Option<seq<ListKind>> {
    match t
    case OpenUl => Some(stack + [Bullets])
    case OpenOl => Some(stack + [Numbers])
    case CloseUl => if stack != [] && stack[|stack| - 1] == Bullets then Some(stack[..|stack| - 1]) else None
    case CloseOl => if stack != [] && stack[|stack| - 1] == Numbers then Some(stack[..|stack| - 1]) else None
    case Item(_) => if stack != [] then Some(stack) else None
    case Plain(_) => if stack == [] then Some(stack) else None
  }

  function Run(toks: seq<Token>, stack: seq<ListKind>): Option<seq<ListKind>>
    decreases |toks|
  {
    if toks == [] then Some(stack)
    else
      match Step(toks[0], stack)
      case None => None
      case Some(s) => Run(toks[1..], s)
  }

  /** Every list opened is closed exactly once, innermost first, items sit
      inside lists and plain lines outside them. */
  predicate WellNested(toks: seq<Token>) {
    Run(toks, []) == Some([])
  }

  function Then(r: Option<seq<ListKind>>, b: seq<Token>): Option<seq<ListKind>> {
    match r
    case None => None
    case Some(s) => Run(b, s)
  }

  lemma {:induction false} RunAppend(a: seq<Token>, b: seq<Token>, stack: seq<ListKind>)
    ensures Run(a + b, stack) == Then(Run(a, stack), b)
    decreases |a|
  {
    if a == [] {
      assert a + b == b;
    } else {
      assert (a + b)[0] == a[0];
      assert (a + b)[1..] == a[1..] + b;
      match Step(a[0], stack)
      case None =>
      case Some(s) => RunAppend(a[1..], b, s);
    }
  }

  lemma RunSingle(t: Token, stack: seq<ListKind>)
    ensures Run([t], stack) == Step(t, stack)
  {
    assert [t][1..] == [];
  }

  /** The stack of open lists a state of the pass stands for. */
  function OpenLists(inU: bool, inO: bool): seq<ListKind> {
    (if inU then [Bullets] else []) + (if inO then [Numbers] else [])
  }

  /** Closing the open list (if any) of a state with at most one open list
      empties the stack. */
  lemma CloseOpen(inU: bool, inO: bool)
    requires !(inU && inO)
    ensures Run(CloseIf(inU, CloseUl) + CloseIf(inO, CloseOl), OpenLists(inU, inO)) == Some([])
    ensures !inU ==> Run(CloseIf(inO, CloseOl), OpenLists(inU, inO)) == Some([])
    ensures !inO ==> Run(CloseIf(inU, CloseUl), OpenLists(inU, inO)) == Some([])
  {
    if inU {
      assert OpenLists(inU, inO) == [Bullets];
      assert CloseIf(inU, CloseUl) + CloseIf(inO, CloseOl) == [CloseUl];
      RunSingle(CloseUl, [Bullets]);
    } else if inO {
      assert OpenLists(inU, inO) == [Numbers];
      assert CloseIf(inU, CloseUl) + CloseIf(inO, CloseOl) == [CloseOl];
      RunSingle(CloseOl, [Numbers]);
    } else {
      assert CloseIf(inU, CloseUl) + CloseIf(inO, CloseOl) == [];
    }
  }

  /** One list line of the corrected pass: close the other list, open this
      kind unless it is open, add the item. */
  lemma ListLineRuns(closeOther: seq<Token>, open: seq<Token>, item: Token, st: seq<ListKind>, kind: ListKind, openTok: Token)
    requires (Run(closeOther, st) == Some([]) && open == [openTok]) || (closeOther == [] && open == [] && st == [kind])
    requires Step(openTok, []) == Some([kind])
    requires item.Item?
    ensures Run(closeOther + open + [item], st) == Some([kind])
  {
    RunAppend(closeOther + open, [item], st);
    RunAppend(closeOther, open, st);
    RunSingle(item, [kind]);
    if open != [] {
      RunSingle(openTok, []);
    } else {
      assert closeOther + open == [];
    }
  }

  /** From any state with at most one open list, the corrected pass closes
      exactly the lists it opens, in nesting order. */
  lemma {:induction false} ListPassNests(lines: seq<string>, inU: bool, inO: bool)
    requires !(inU && inO)
    ensures Run(ListPass(lines, inU, inO), OpenLists(inU, inO)) == Some([])
    decreases |lines|
  {
    var st := OpenLists(inU, inO);
    CloseOpen(inU, inO);
    if lines != [] {
      var line := lines[0];
      var rest := lines[1..];
      if IsBulletLine(line) {
        var head := CloseIf(inO, CloseOl) + (if inU then [] else [OpenUl]) + [Item(line[2..])];
        ListPassNests(rest, true, false);
        RunAppend(head, ListPass(rest, true, false), st);
        if inU {
          assert st == [Bullets] && CloseIf(inO, CloseOl) == [];
        }
        assert [] + [Bullets] == [Bullets];
        ListLineRuns(CloseIf(inO, CloseOl), if inU then [] else [OpenUl], Item(line[2..]), st, Bullets, OpenUl);
        assert OpenLists(true, false) == [Bullets];
      } else if IsOrderedLine(line) {
        var item := Item(OrderedItemText(line));
        var head := CloseIf(inU, CloseUl) + (if inO then [] else [OpenOl]) + [item];
        ListPassNests(rest, false, true);
        RunAppend(head, ListPass(rest, false, true), st);
        if inO {
          assert st == [Numbers] && CloseIf(inU, CloseUl) == [];
        }
        assert [] + [Numbers] == [Numbers];
        ListLineRuns(CloseIf(inU, CloseUl), if inO then [] else [OpenOl], item, st, Numbers, OpenOl);
        assert OpenLists(false, true) == [Numbers];
      } else {
        var closing := CloseIf(inU, CloseUl) + CloseIf(inO, CloseOl);
        var head := closing + [Plain(line)];
        ListPassNests(rest, false, false);
        RunAppend(head, ListPass(rest, false, false), st);
        RunAppend(closing, [Plain(line)], st);
        RunSingle(Plain(line), []);
      }
    }
  }

  /** The corrected pass always produces well-nested lists. */
  lemma ListPassWellNested(lines: seq<string>)
    ensures WellNested(ListPass(lines, false, false))
  {
    ListPassNests(lines, false, false);
  }

  /** A list line while a list of its kind is open adds its item to that
      list, opening and closing nothing, whatever else is open. */
  lemma SameKindContinues(line: string, rest: seq<string>, inU: bool, inO: bool)
    ensures IsBulletLine(line) && inU ==>
      ListPassAsWritten([line] + rest, inU, inO) == [Item(ItemText(line))] + ListPassAsWritten(rest, true, inO)
    ensures IsOrderedLine(line) && inO ==>
      ListPassAsWritten([line] + rest, inU, inO) == [Item(ItemText(line))] + ListPassAsWritten(rest, inU, true)
  {
    if IsBulletLine(line) {
      BulletStep(line, rest, inU, inO);
    } else if IsOrderedLine(line) {
      OrderedStep(line, rest, inU, inO);
    }
  }

  /** One bullet line of the pass as written. */
  lemma BulletStep(line: string, rest: seq<string>, inU: bool, inO: bool)
    requires IsBulletLine(line)
    ensures ListPassAsWritten([line] + rest, inU, inO)
         == (if inU then [] else [OpenUl]) + [Item(line[2..])] + ListPassAsWritten(rest, true, inO)
  {
    assert ([line] + rest)[1..] == rest;
  }

  /** One ordered line of the pass as written. */
  lemma OrderedStep(line: string, rest: seq<string>, inU: bool, inO: bool)
    requires IsOrderedLine(line)
    ensures ListPassAsWritten([line] + rest, inU, inO)
         == (if inO then [] else [OpenOl]) + [Item(OrderedItemText(line))] + ListPassAsWritten(rest, inU, true)
  {
    assert ([line] + rest)[1..] == rest;
    assert IsDigit(line[0]);
  }

  /** As written, a bullet list interrupted by a numbered line produces
      crossing tags: for `- a`, `1. b`, `- c` the pass emits `<ul>`, `<ol>`,
      three items, then `</ul>` before `</ol>`. */
  lemma AsWrittenCrossesTags(a: string, b: string, c: string)
    requires IsBulletLine(a) && IsOrderedLine(b) && IsBulletLine(c)
    ensures ListPassAsWritten([a, b, c], false, false)
         == [OpenUl, Item(a[2..]), OpenOl, Item(OrderedItemText(b)), Item(c[2..]), CloseUl, CloseOl]
    ensures !WellNested(ListPassAsWritten([a, b, c], false, false))
  {
    var last := ListPassAsWritten([c], true, true);
    assert last == [Item(c[2..]), CloseUl, CloseOl] by {
      BulletStep(c, [], true, true);
      assert [c] + [] == [c];
      assert ListPassAsWritten([], true, true) == [CloseUl, CloseOl];
    }
    var middle := ListPassAsWritten([b, c], true, false);
    assert middle == [OpenOl, Item(OrderedItemText(b))] + last by {
      OrderedStep(b, [c], true, false);
      assert [b] + [c] == [b, c];
    }
    assert ListPassAsWritten([a, b, c], false, false) == [OpenUl, Item(a[2..])] + middle by {
      BulletStep(a, [b, c], false, false);
      assert [a] + [b, c] == [a, b, c];
    }
    CrossingTokens(a[2..], OrderedItemText(b), c[2..]);
  }

  /** `</ul>` arrives while `<ol>` is the innermost open list. */
  lemma CrossingTokens(x: string, y: string, z: string)
    ensures !WellNested([OpenUl, Item(x), OpenOl, Item(y), Item(z), CloseUl, CloseOl])
  {
    var toks := [OpenUl, Item(x), OpenOl, Item(y), Item(z), CloseUl, CloseOl];
    var a := [OpenUl, Item(x), OpenOl, Item(y), Item(z)];
    assert toks == a + [CloseUl, CloseOl];
    RunAppend(a, [CloseUl, CloseOl], []);
    RunAppend([OpenUl, Item(x)], [OpenOl, Item(y), Item(z)], []);
    assert Run([OpenUl, Item(x)], []) == Some([Bullets]) by {
      RunAppend([OpenUl], [Item(x)], []);
      RunSingle(OpenUl, []);
      assert [] + [Bullets] == [Bullets];
      RunSingle(Item(x), [Bullets]);
    }
    assert Run([OpenOl, Item(y), Item(z)], [Bullets]) == Some([Bullets, Numbers]) by {
      RunAppend([OpenOl], [Item(y), Item(z)], [Bullets]);
      RunSingle(OpenOl, [Bullets]);
      assert [Bullets] + [Numbers] == [Bullets, Numbers];
      RunAppend([Item(y)], [Item(z)], [Bullets, Numbers]);
      RunSingle(Item(y), [Bullets, Numbers]);
      RunSingle(Item(z), [Bullets, Numbers]);
    }
    RunAppend([CloseUl], [CloseOl], [Bullets, Numbers]);
    RunSingle(CloseUl, [Bullets, Numbers]);
  }

  /** Opening tags minus closing tags of one list kind. */
  function Net(toks: seq<Token>, k: ListKind): int {
    if toks == [] then 0
    else
      var d := match toks[0]
               case OpenUl => if k == Bullets then 1 else 0
               case CloseUl => if k == Bullets then -1 else 0
               case OpenOl => if k == Numbers then 1 else 0
               case CloseOl => if k == Numbers then -1 else 0
               case _ => 0;
      d + Net(toks[1..], k)
  }

  lemma {:induction false} NetAppend(a: seq<Token>, b: seq<Token>, k: ListKind)
    ensures Net(a + b, k) == Net(a, k) + Net(b, k)
    decreases |a|
  {
    if a == [] {
      assert a + b == b;
    } else {
      assert (a + b)[1..] == a[1..] + b;
      NetAppend(a[1..], b, k);
    }
  }

  lemma NetSingle(t: Token, k: ListKind)
    ensures Net([t], k) == Net([t] + [], k)
    ensures t.Item? || t.Plain? ==> Net([t], k) == 0
    ensures Net([OpenUl], k) == (if k == Bullets then 1 else 0)
    ensures Net([CloseUl], k) == (if k == Bullets then -1 else 0)
    ensures Net([OpenOl], k) == (if k == Numbers then 1 else 0)
    ensures Net([CloseOl], k) == (if k == Numbers then -1 else 0)
  {
    assert [t] + [] == [t];
    assert [t][1..] == [];
    assert [OpenUl][1..] == [] && [CloseUl][1..] == [] && [OpenOl][1..] == [] && [CloseOl][1..] == [];
  }

  function Flag(b: bool): int {
    if b then 1 else 0
  }

  /** Even as written, every list opened is closed again: per kind, opening
      tags plus the list already open balance the closing tags. */
  lemma {:induction false} AsWrittenBalanced(lines: seq<string>, inU: bool, inO: bool, k: ListKind)
    ensures Net(ListPassAsWritten(lines, inU, inO), k) + Flag(if k == Bullets then inU else inO) == 0
    decreases |lines|
  {
    NetSingle(OpenUl, k);
    if lines == [] {
      NetAppend(CloseIf(inU, CloseUl), CloseIf(inO, CloseOl), k);
      assert Net([], k) == 0;
    } else {
      var line := lines[0];
      var rest := lines[1..];
      if IsBulletLine(line) {
        var item := Item(line[2..]);
        var opening: seq<Token> := if inU then [] else [OpenUl];
        AsWrittenBalanced(rest, true, inO, k);
        NetAppend(opening + [item], ListPassAsWritten(rest, true, inO), k);
        NetAppend(opening, [item], k);
        NetSingle(item, k);
        assert Net([], k) == 0;
      } else if IsOrderedLine(line) {
        var item := Item(OrderedItemText(line));
        var opening: seq<Token> := if inO then [] else [OpenOl];
        AsWrittenBalanced(rest, inU, true, k);
        NetAppend(opening + [item], ListPassAsWritten(rest, inU, true), k);
        NetAppend(opening, [item], k);
        NetSingle(item, k);
        assert Net([], k) == 0;
      } else {
        var closing := CloseIf(inU, CloseUl) + CloseIf(inO, CloseOl);
        AsWrittenBalanced(rest, false, false, k);
        NetAppend(closing + [Plain(line)], ListPassAsWritten(rest, false, false), k);
        NetAppend(closing, [Plain(line)], k);
        NetAppend(CloseIf(inU, CloseUl), CloseIf(inO, CloseOl), k);
        NetSingle(Plain(line), k);
        assert Net([], k) == 0;
      }
    }
  }

  // ---------------------------------------------------------------------
  // The two passes together
  // ---------------------------------------------------------------------

  function Render(t: Token): string {
    match t
    case OpenUl => "<ul>"
    case CloseUl => "</ul>"
    case OpenOl => "<ol>"
    case CloseOl => "</ol>"
    case Item(s) => "<li>" + s + "</li>"
    case Plain(s) => s
  }

  function RenderAll(toks: seq<Token>): (r: seq<string>)
    ensures |r| == |toks|
    ensures forall i :: 0 <= i < |toks| ==> r[i] == Render(toks[i])
  {
    if toks == [] then [] else [Render(toks[0])] + RenderAll(toks[1..])
  }

  /** The tokens of the list pass over an answer: escape, split into lines,
      group lists. */
  function ListTokens(text: string): seq<Token> {
    ListPassAsWritten(SplitOn(EscapeHtml(text), '\n'), false, false)
  }

  /** `markdownToHTML` restricted to its escaping and list passes.  Every
      line of the escaped answer is rendered once, in order, and every list
      tag opened is closed again (they need not nest, see
      `AsWrittenCrossesTags`). */
  function MarkdownLists(text: string): (r: string)
    ensures text == "" ==> r == ""
    ensures text != "" ==>
      var lines := SplitOn(EscapeHtml(text), '\n');
      && |Texts(ListTokens(text))| == |lines|
      && (forall i :: 0 <= i < |lines| ==> Texts(ListTokens(text))[i] == LineText(lines[i]))
      && Net(ListTokens(text), Bullets) == 0
      && Net(ListTokens(text), Numbers) == 0
  {
    if text == "" then ""
    else
      var lines := SplitOn(EscapeHtml(text), '\n');
      AsWrittenBalanced(lines, false, false, Bullets);
      AsWrittenBalanced(lines, false, false, Numbers);
      Join(RenderAll(ListTokens(text)), "\n")
  }

  /** No text token of the pass holds `<` or `>` when no line does: every
      angle bracket in the rendered list HTML belongs to a tag the renderer
      wrote. */
  lemma NoRawAngleBrackets(lines: seq<string>, inU: bool, inO: bool)
    requires forall i :: 0 <= i < |lines| ==> '<' !in lines[i] && '>' !in lines[i]
    ensures forall t :: t in ListPassAsWritten(lines, inU, inO) && (t.Item? || t.Plain?) ==>
      '<' !in t.text && '>' !in t.text
  {
    var out := ListPassAsWritten(lines, inU, inO);
    forall t | t in out && (t.Item? || t.Plain?) ensures '<' !in t.text && '>' !in t.text {
      var i := TextTokenIndex(out, t);
      SuffixChars(lines[i], t.text);
    }
  }

  lemma SuffixChars(line: string, suf: string)
    requires |suf| <= |line| && suf == line[|line| - |suf|..]
    ensures forall c :: c in suf ==> c in line
  {
    forall c | c in suf ensures c in line {
      var k :| 0 <= k < |suf| && suf[k] == c;
      assert line[|line| - |suf| + k] == c;
    }
  }

  /** The lines of an escaped answer carry no angle brackets. */
  lemma EscapedLinesClean(text: string)
    ensures forall i :: 0 <= i < |SplitOn(EscapeHtml(text), '\n')| ==>
      '<' !in SplitOn(EscapeHtml(text), '\n')[i] && '>' !in SplitOn(EscapeHtml(text), '\n')[i]
  {
    SplitOnSubstrings(EscapeHtml(text), '\n');
  }

  /** Every piece of a split is drawn from the split string. */
  lemma {:induction false} SplitOnSubstrings(s: string, c: char)
    ensures forall i, x :: 0 <= i < |SplitOn(s, c)| && x in SplitOn(s, c)[i] ==> x in s
    decreases |s|
  {
    match IndexOf(s, c)
    case None =>
    case Some(i) =>
      SplitOnSubstrings(s[i + 1..], c);
      var r := SplitOn(s, c);
      assert r == [s[..i]] + SplitOn(s[i + 1..], c);
      forall j, x | 0 <= j < |r| && x in r[j] ensures x in s {
        if j == 0 {
          assert x in s[..i];
        } else {
          assert r[j] == SplitOn(s[i + 1..], c)[j - 1];
          assert x in s[i + 1..];
        }
      }
  }

  /** Every list item and plain line of the rendered answer is free of raw
      angle brackets. */
  lemma ListTokensClean(text: string)
    ensures forall t :: t in ListTokens(text) && (t.Item? || t.Plain?) ==> '<' !in t.text && '>' !in t.text
  {
    EscapedLinesClean(text);
    NoRawAngleBrackets(SplitOn(EscapeHtml(text), '\n'), false, false);
  }
}
