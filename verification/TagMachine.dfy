/** The converter's stack machine: what it emits for arbitrary, and for properly
    nested, input. */
module TagMachine {
  import opened Options
  import opened TelegramHtml
  import Text
  import Whitespace

  datatype Chunk = Plain(s: string) | Break(s: string) | Open(name: string, s: string) | Close(name: string, s: string)

  /** An entry of the open stack: the tag's name, and whether its opening was emitted. */
  datatype Entry = Entry(name: string, kept: bool)

  datatype State = State(out: seq<Chunk>, stack: seq<Entry>)

  /** The attribute parser, as a function of the raw attribute text. */
  type Parser = string -> Attrs

  const START := State([], [])

  /** The topmost entry of that name. */
  function Topmost(stack: seq<Entry>, name: string): (r: Option<nat>)
    ensures r.Some? ==> r.value < |stack| && stack[r.value].name == name
                        && forall k | r.value < k < |stack| :: stack[k].name != name
    ensures r.None? ==> forall k | 0 <= k < |stack| :: stack[k].name != name
  {
    if |stack| == 0 then None
    else if stack[|stack| - 1].name == name then Some(|stack| - 1)
    else Topmost(stack[..|stack| - 1], name)
  }

  function Remove(stack: seq<Entry>, i: nat): seq<Entry>
    requires i < |stack|
  {
    stack[..i] + stack[i + 1..]
  }

  function ClosingChunks(name: string, hadOpen: bool): seq<Chunk> {
    if name == "p" then [Break("\n\n")]
    else if name in UNWRAP || RenderClose(name, hadOpen) == "" then []
    else [Close(name, RenderClose(name, hadOpen))]
  }

  function OnClose(st: State, name: string): State {
    var top := Topmost(st.stack, name);
    if top.None? then State(st.out + ClosingChunks(name, false), st.stack)
    else State(st.out + ClosingChunks(name, st.stack[top.value].kept), Remove(st.stack, top.value))
  }

  function OnOpen(st: State, name: string, attrs: Attrs): State {
    if name in BREAK then State(st.out + [Break("\n")], st.stack)
    else if name in UNWRAP then State(st.out, st.stack + [Entry(name, false)])
    else
      var rendered := RenderOpen(name, attrs);
      State(st.out + if rendered == "" then [] else [Open(name, rendered)], st.stack + [Entry(name, rendered != "")])
  }

  function OnToken(st: State, t: Token, parse: Parser): State {
    match t
    case TextToken(text) => st.(out := st.out + [Plain(text)])
    case TagToken(tag, _) => if tag.closing then OnClose(st, tag.name) else OnOpen(st, tag.name, parse(tag.attrs))
  }

  function RunTokens(st: State, ts: seq<Token>, parse: Parser): State {
    if |ts| == 0 then st else OnToken(RunTokens(st, ts[..|ts| - 1], parse), ts[|ts| - 1], parse)
  }

  /** The closing tags for what is still open, topmost first. */
  function AutoClose(stack: seq<Entry>): seq<Chunk> {
    if |stack| == 0 then []
    else
      var top := stack[|stack| - 1];
      (if top.kept then [Close(top.name, RenderClose(top.name, true))] else []) + AutoClose(stack[..|stack| - 1])
  }

  function Emitted(ts: seq<Token>, parse: Parser): seq<Chunk> {
    var st := RunTokens(START, ts, parse);
    st.out + AutoClose(st.stack)
  }

  function Join(chunks: seq<Chunk>): string {
    if |chunks| == 0 then "" else Join(chunks[..|chunks| - 1]) + chunks[|chunks| - 1].s
  }

  function Convert(s: string, parse: Parser): string { Whitespace.FinalPass(Join(Emitted(Tokens(s, 0), parse))) }

  lemma RunAppend(st: State, ts: seq<Token>, t: Token, parse: Parser)
    ensures RunTokens(st, ts + [t], parse) == OnToken(RunTokens(st, ts, parse), t, parse)
  {
  }

  lemma {:induction false} RunConcat(st: State, a: seq<Token>, b: seq<Token>, parse: Parser)
    ensures RunTokens(st, a + b, parse) == RunTokens(RunTokens(st, a, parse), b, parse)
  {
    if |b| == 0 {
      assert a + b == a;
    } else {
      RunConcat(st, a, b[..|b| - 1], parse);
      assert (a + b)[..|a + b| - 1] == a + b[..|b| - 1];
    }
  }

  // ----- the joined output -----

  lemma JoinOne(c: Chunk)
    ensures Join([c]) == c.s
  {
  }

  /** Chunks are joined in the order in which they were emitted. */
  lemma {:induction false} JoinConcat(a: seq<Chunk>, b: seq<Chunk>)
    ensures Join(a + b) == Join(a) + Join(b)
  {
    if |b| == 0 {
      assert a + b == a;
    } else {
      JoinConcat(a, b[..|b| - 1]);
      assert (a + b)[..|a + b| - 1] == a + b[..|b| - 1];
      Regroup(Join(a), Join(b[..|b| - 1]), b[|b| - 1].s);
    }
  }

  lemma JoinThree(a: Chunk, b: seq<Chunk>, c: Chunk)
    ensures Join([a] + b + [c]) == a.s + Join(b) + c.s
  {
    hide Join;
    JoinConcat([a] + b, [c]);
    JoinConcat([a], b);
    JoinOne(a);
    JoinOne(c);
  }

  // ----- single tags -----

  /** A line break or a rule becomes a newline; its closing form, with nothing to close, nothing. */
  lemma LineBreaks(st: State, name: string, attrs: Attrs)
    requires name == "br" || name == "hr"
    ensures OnOpen(st, name, attrs) == State(st.out + [Break("\n")], st.stack)
  {
  }

  /** Opening a paragraph emits nothing; closing one, open or not, emits a blank line. */
  lemma Paragraphs(st: State, attrs: Attrs)
    ensures OnOpen(st, "p", attrs) == State(st.out, st.stack + [Entry("p", false)])
    ensures OnClose(st, "p").out == st.out + [Break("\n\n")]
  {
  }

  /** Closing any other tag that is not open emits nothing. */
  lemma StrayClose(st: State, name: string)
    requires name != "p" && forall e | e in st.stack :: e.name != name
    ensures OnClose(st, name) == st
  {
    assert Topmost(st.stack, name).None?;
    assert st.out + [] == st.out;
  }

  // ----- the result on plain and on bold text -----

  /** A text in which no tag begins is only tidied up. */
  lemma PlainConverts(s: string, parse: Parser)
    requires TagFree(s)
    ensures Convert(s, parse) == Whitespace.FinalPass(s)
  {
    var i := NextTag(s, 0);
    if i < |s| {
      TagBegins(s, i);
    }
    assert Tokens(s, 0) == TextTokens(s[0..]) && s[0..] == s;
    hide Tokens, NextTag, BeginsTag, Whitespace.FinalPass;
    RunNothing(parse);
    if s != "" {
      RunAppend(START, [], TextToken(s), parse);
      assert [] + [TextToken(s)] == TextTokens(s);
      assert Emitted(TextTokens(s), parse) == [Plain(s)];
      JoinOne(Plain(s));
    } else {
      assert Emitted(TextTokens(s), parse) == [];
    }
  }

  ghost predicate TagFree(s: string) { forall i: nat :: !BeginsTag(s, i) }

  /** Bold text without a '<' inside and without a run of three newlines. */
  ghost predicate IsBold(s: string) {
    |s| >= 7 && s[..3] == "<b>" && s[|s| - 4..] == "</b>" && '<' !in s[3..|s| - 4] && Whitespace.NoTripleNewline(s)
  }

  lemma OpensBold(s: string)
    requires IsBold(s)
    ensures TagAt(s, 0) && TagOf(s, 0) == Tag(false, "b", "") && TagEnd(s, 0) == 3 && NextTag(s, 0) == 0
  {
    assert s[0] == s[..3][0] && s[1] == s[..3][1] && s[2] == s[..3][2];
    assert NameEnd(s, 1) == 2 && CloseBracket(s, 1) == 2;
    assert s[1..2] == "b" && s[2..2] == "";
    assert Text.Lower("b") == "b";
  }

  lemma NextTagIs(s: string, pos: nat, i: nat)
    requires pos <= i < |s| && TagAt(s, i) && forall k | pos <= k < i :: !TagAt(s, k)
    ensures NextTag(s, pos) == i
  {
    hide TagAt;
  }

  lemma ClosesBold(s: string)
    requires IsBold(s)
    ensures var i := |s| - 4; TagAt(s, i) && TagOf(s, i) == Tag(true, "b", "") && TagEnd(s, i) == |s|
  {
    var i := |s| - 4;
    assert s[i] == s[i..][0] && s[i + 1] == s[i..][1] && s[i + 2] == s[i..][2] && s[i + 3] == s[i..][3];
    assert NameStart(s, i) == i + 2;
    assert NameEnd(s, i + 3) == i + 3 && NameEnd(s, i + 2) == i + 3;
    assert CloseBracket(s, i + 3) == i + 3 && CloseBracket(s, i + 2) == i + 3;
    assert s[i + 2..i + 3] == "b" && s[i + 3..i + 3] == "";
    assert Text.Lower("b") == "b";
  }

  lemma NoTagInside(s: string)
    requires IsBold(s)
    ensures forall k | 3 <= k < |s| - 4 :: !TagAt(s, k)
  {
    forall k | 3 <= k < |s| - 4 ensures !TagAt(s, k) {
      assert s[3..|s| - 4][k - 3] == s[k];
    }
  }

  lemma NoTokensLeft(s: string)
    ensures Tokens(s, |s|) == []
  {
  }

  lemma BoldTokens(s: string)
    requires IsBold(s)
    ensures Tokens(s, 0) == [TagToken(Tag(false, "b", ""), s[..3])] + TextTokens(s[3..|s| - 4])
                            + [TagToken(Tag(true, "b", ""), s[|s| - 4..])]
  {
    var i := |s| - 4;
    OpensBold(s);
    ClosesBold(s);
    NoTagInside(s);
    NextTagIs(s, 3, i);
    TokensStep(s, 0);
    TokensStep(s, 3);
    NoTokensLeft(s);
    BoldSlices(s);
    hide TagAt, TagOf, NextTag, Tokens, IsBold, TextTokens;
    ThreeTokens(TagToken(Tag(false, "b", ""), s[..3]), TextTokens(s[3..i]), TagToken(Tag(true, "b", ""), s[i..]));
  }

  lemma BoldSlices(s: string)
    requires IsBold(s)
    ensures s[|s| - 4..|s|] == s[|s| - 4..] && s[0..3] == s[..3] && TextTokens(s[0..0]) == []
  {
  }

  lemma ThreeTokens(a: Token, b: seq<Token>, c: Token)
    ensures [] + [a] + (b + [c] + []) == [a] + b + [c]
  {
  }

  lemma OpenBold(st: State, attrs: Attrs)
    ensures OnOpen(st, "b", attrs) == State(st.out + [Open("b", "<b>")], st.stack + [Entry("b", true)])
  {
    BareIsKept("b", attrs);
    assert "<" + "b" + ">" == "<b>";
    hide RenderOpen;
  }

  lemma CloseBold(out: seq<Chunk>)
    ensures OnClose(State(out, [Entry("b", true)]), "b") == State(out + [Close("b", "</b>")], [])
  {
    ClosedExactly("b", true);
    assert "</" + "b" + ">" == "</b>";
    hide RenderClose;
    assert Topmost([Entry("b", true)], "b") == Some(0) && Remove([Entry("b", true)], 0) == [];
  }

  lemma BoldRuns(t: string, open: string, close: string, parse: Parser)
    ensures var ts := [TagToken(Tag(false, "b", ""), open)] + TextTokens(t) + [TagToken(Tag(true, "b", ""), close)];
            Emitted(ts, parse)
            == [Open("b", "<b>")] + (if t == "" then [] else [Plain(t)]) + [Close("b", "</b>")]
  {
    var o, c := TagToken(Tag(false, "b", ""), open), TagToken(Tag(true, "b", ""), close);
    var texts := if t == "" then [] else [Plain(t)];
    RunNothing(parse);
    RunAppend(START, [], o, parse);
    OpenBold(START, parse(""));
    CloseBold([Open("b", "<b>")] + texts);
    RunAppend(START, [o] + TextTokens(t), c, parse);
    if t != "" {
      RunAppend(START, [o], TextToken(t), parse);
    }
    hide OnOpen, OnClose, RunTokens;
    assert [] + [o] == [o] && [] + [Open("b", "<b>")] == [Open("b", "<b>")];
    assert [] + [Entry("b", true)] == [Entry("b", true)];
    assert t == "" ==> [o] + TextTokens(t) == [o] && [Open("b", "<b>")] + texts == [Open("b", "<b>")];
  }

  /** Bold text comes back as it is. */
  lemma BoldConverts(s: string, parse: Parser)
    requires IsBold(s)
    ensures Convert(s, parse) == s
  {
    var t := s[3..|s| - 4];
    var texts := if t == "" then [] else [Plain(t)];
    BoldTokens(s);
    BoldRuns(t, s[..3], s[|s| - 4..], parse);
    JoinThree(Open("b", "<b>"), texts, Close("b", "</b>"));
    BoldParts(s);
    TidyBold(s);
    hide IsBold, Tokens, Emitted, Join, Whitespace.FinalPass;
    if t != "" {
      JoinOne(Plain(t));
    } else {
      JoinNone();
    }
  }

  lemma BoldParts(s: string)
    requires IsBold(s)
    ensures s == "<b>" + s[3..|s| - 4] + "</b>"
  {
  }

  lemma JoinNone()
    ensures Join([]) == ""
  {
  }

  lemma TidyBold(s: string)
    requires IsBold(s)
    ensures Whitespace.FinalPass(s) == s
  {
    assert s[0] == s[..3][0] && s[|s| - 1] == s[|s| - 4..][3];
    Whitespace.CollapseFixed(s);
    AsciiWhitespace('<');
    AsciiWhitespace('>');
    Whitespace.StripFixed(s);
  }

  /** What becomes of text without tags, and of bold text. */
  lemma SimpleTexts(s: string, parse: Parser)
    ensures TagFree(s) ==> Whitespace.Thinned(Convert(s, parse), s)
                           && Whitespace.Ink(Convert(s, parse)) == Whitespace.Ink(s)
    ensures IsBold(s) ==> Convert(s, parse) == s
  {
    hide TagFree, IsBold, Convert, Whitespace.FinalPass, Whitespace.Thinned, Whitespace.Ink;
    if TagFree(s) {
      PlainConverts(s, parse);
      Whitespace.FinalPassIsClean(s);
    }
    if IsBold(s) {
      BoldConverts(s, parse);
    }
  }

  // ----- the loop of the service -----

  /** The search for the matching open, from the top of the stack down. */
  method PopMatching(stack: seq<Entry>, name: string) returns (stack': seq<Entry>, hadOpen: bool)
    ensures var top := Topmost(stack, name);
            if top.None? then stack' == stack && !hadOpen
            else stack' == Remove(stack, top.value) && hadOpen == stack[top.value].kept
  {
    var i := |stack| - 1;
    while i >= 0
      invariant -1 <= i < |stack|
      invariant forall k | i < k < |stack| :: stack[k].name != name
    {
      if stack[i].name == name {
        return stack[..i] + stack[i + 1..], stack[i].kept;
      }
      i := i - 1;
    }
    return stack, false;
  }

  /** The body of the scanning loop for one tag. */
  method HandleTag(out: seq<Chunk>, openStack: seq<Entry>, tag: Tag, attrs: Attrs)
    returns (out': seq<Chunk>, openStack': seq<Entry>)
    ensures State(out', openStack') ==
              if tag.closing then OnClose(State(out, openStack), tag.name)
              else OnOpen(State(out, openStack), tag.name, attrs)
  {
    hide RenderOpen, RenderClose;
    out', openStack' := out, openStack;
    if tag.closing {
      var hadOpen;
      openStack', hadOpen := PopMatching(openStack, tag.name);
      if tag.name == "p" {
        out' := out + [Break("\n\n")];
      } else if tag.name !in UNWRAP {
        var rendered := RenderClose(tag.name, hadOpen);
        if rendered != "" {
          out' := out + [Close(tag.name, rendered)];
        }
      }
      return;
    }
    if tag.name in BREAK {
      out' := out + [Break("\n")];
    } else if tag.name in UNWRAP {
      openStack' := openStack + [Entry(tag.name, false)];
    } else {
      var rendered := RenderOpen(tag.name, attrs);
      if rendered != "" {
        out' := out + [Open(tag.name, rendered)];
      }
      openStack' := openStack + [Entry(tag.name, rendered != "")];
    }
  }

  /** Scan, emit, close what was forgotten, join and tidy up. */
  method ToTelegramHtml(s: string, parse: Parser) returns (result: string)
    ensures result == Convert(s, parse)
    ensures TagFree(s) ==> Whitespace.Thinned(result, s) && Whitespace.Ink(result) == Whitespace.Ink(s)
    ensures IsBold(s) ==> result == s
  {
    hide OnClose, OnOpen, Tokens, NextTag, TagAt, TagOf, RunTokens, Whitespace.FinalPass;
    hide Whitespace.Thinned, Whitespace.Ink, IsBold, TagFree;
    SimpleTexts(s, parse);
    var out: seq<Chunk>, openStack: seq<Entry> := [], [];
    var pos := 0;
    ghost var done: seq<Token> := [];
    RunNothing(parse);
    var i := NextTag(s, pos);
    while i < |s|
      invariant pos <= |s| && i == NextTag(s, pos)
      invariant Tokens(s, 0) == done + Tokens(s, pos)
      invariant State(out, openStack) == RunTokens(START, done, parse)
      decreases |s| - pos
    {
      TokensStep(s, pos);
      RunStep(s, pos, i, done, parse);
      if i > pos {
        out := out + [Plain(s[pos..i])];
      }
      var tag := TagOf(s, i);
      out, openStack := HandleTag(out, openStack, tag, parse(tag.attrs));
      done := done + TextTokens(s[pos..i]) + [TagToken(tag, s[i..TagEnd(s, i)])];
      pos := TagEnd(s, i);
      i := NextTag(s, pos);
    }
    RunRest(s, pos, done, parse);
    if pos < |s| {
      out := out + [Plain(s[pos..])];
    }
    out := CloseForgotten(out, openStack);
    result := Whitespace.FinalPass(Join(out));
  }

  lemma RunNothing(parse: Parser)
    ensures RunTokens(START, [], parse) == START
  {
  }

  lemma RunStep(s: string, pos: nat, i: nat, done: seq<Token>, parse: Parser)
    requires pos <= i < |s| && TagAt(s, i)
    ensures var st := RunTokens(START, done, parse);
            var seen := if i > pos then st.(out := st.out + [Plain(s[pos..i])]) else st;
            var token := TagToken(TagOf(s, i), s[i..TagEnd(s, i)]);
            RunTokens(START, done + TextTokens(s[pos..i]) + [token], parse) == OnToken(seen, token, parse)
  {
    hide OnClose, OnOpen, TagOf, RunTokens, TagAt;
    if i > pos {
      RunAppend(START, done, TextToken(s[pos..i]), parse);
    } else {
      assert done + [] == done;
    }
    RunAppend(START, done + TextTokens(s[pos..i]), TagToken(TagOf(s, i), s[i..TagEnd(s, i)]), parse);
  }

  lemma TokensStep(s: string, pos: nat)
    requires pos <= |s| && NextTag(s, pos) < |s|
    ensures var i := NextTag(s, pos);
            Tokens(s, pos) == TextTokens(s[pos..i]) + [TagToken(TagOf(s, i), s[i..TagEnd(s, i)])]
              + Tokens(s, TagEnd(s, i))
  {
  }

  lemma RunRest(s: string, pos: nat, done: seq<Token>, parse: Parser)
    requires pos <= |s| && NextTag(s, pos) == |s| && Tokens(s, 0) == done + Tokens(s, pos)
    ensures var st := RunTokens(START, done, parse);
            RunTokens(START, Tokens(s, 0), parse) == if pos < |s| then st.(out := st.out + [Plain(s[pos..])]) else st
  {
    if pos < |s| {
      RunAppend(START, done, TextToken(s[pos..]), parse);
    } else {
      assert done + [] == done;
    }
  }

  method CloseForgotten(out: seq<Chunk>, stack: seq<Entry>) returns (out': seq<Chunk>)
    ensures out' == out + AutoClose(stack)
  {
    out' := out;
    var i := |stack|;
    assert stack[..i] == stack;
    while i > 0
      invariant 0 <= i <= |stack|
      invariant out' + AutoClose(stack[..i]) == out + AutoClose(stack)
    {
      assert stack[..i][..i - 1] == stack[..i - 1];
      i := i - 1;
      if stack[i].kept {
        out' := out' + [Close(stack[i].name, RenderClose(stack[i].name, true))];
      }
    }
  }
}
