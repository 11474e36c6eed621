/** Properties of the emitted chunks: per-name balance for any input, the text kept
    word for word, and properly nested output for properly nested input. */
module TagGuarantees {
  import opened Sums
  import opened Options
  import opened TelegramHtml
  import opened TagMachine
  import Whitespace

  // ----- any input: every name is balanced -----

  function Surplus(name: string): Chunk -> int {
    (c: Chunk) => if c.Open? && c.name == name then 1 else if c.Close? && c.name == name then -1 else 0
  }

  function KeptOf(name: string): Entry -> int { (e: Entry) => if e.kept && e.name == name then 1 else 0 }

  /** A chunk that is a tag is one tag of a whitelisted name. */
  ghost predicate ChunkOk(c: Chunk) {
    match c
    case Open(name, s) => Whitelisted(name) && OneTag(s, name)
    case Close(name, s) => Whitelisted(name) && s == "</" + name + ">"
    case _ => true
  }

  ghost predicate NeverOverclosed(out: seq<Chunk>) {
    forall k, name: string | 0 <= k <= |out| :: Sum(out[..k], Surplus(name)) >= 0
  }

  /** The surplus of a name is the number of its entries on the stack that were emitted. */
  ghost predicate Balanced(out: seq<Chunk>, stack: seq<Entry>) {
    && (forall name: string :: Sum(out, Surplus(name)) == Sum(stack, KeptOf(name)))
    && NeverOverclosed(out)
    && (forall c | c in out :: ChunkOk(c))
    && (forall e | e in stack && e.kept :: Whitelisted(e.name))
  }

  lemma SumRemove(stack: seq<Entry>, i: nat, name: string)
    requires i < |stack|
    ensures Sum(Remove(stack, i), KeptOf(name)) == Sum(stack, KeptOf(name)) - KeptOf(name)(stack[i])
  {
    hide Sum;
    var head, tail, w := stack[..i], stack[i + 1..], KeptOf(name);
    SumConcat(head, tail, w);
    SumAppend(head, stack[i], w);
    SumConcat(head + [stack[i]], tail, w);
    assert stack == head + [stack[i]] + tail;
  }

  lemma StackNotNegative(stack: seq<Entry>, name: string)
    ensures Sum(stack, KeptOf(name)) >= 0
  {
  }

  /** One more chunk, with the stack that goes with it. */
  lemma ChunkKeepsBalance(out: seq<Chunk>, stack: seq<Entry>, c: Chunk, stack': seq<Entry>)
    requires Balanced(out, stack) && ChunkOk(c)
    requires forall e | e in stack' && e.kept :: Whitelisted(e.name)
    requires forall name: string :: Sum(stack', KeptOf(name)) == Sum(stack, KeptOf(name)) + Surplus(name)(c)
    ensures Balanced(out + [c], stack')
  {
    hide Sum, ChunkOk, Whitelisted;
    var out' := out + [c];
    forall name: string ensures Sum(out', Surplus(name)) == Sum(stack', KeptOf(name)) {
      SumAppend(out, c, Surplus(name));
    }
    forall k, name: string | 0 <= k <= |out'| ensures Sum(out'[..k], Surplus(name)) >= 0 {
      if k <= |out| {
        assert out'[..k] == out[..k];
      } else {
        assert out'[..k] == out';
        StackNotNegative(stack', name);
      }
    }
  }

  lemma StackKeepsBalance(out: seq<Chunk>, stack: seq<Entry>, stack': seq<Entry>)
    requires Balanced(out, stack)
    requires forall e | e in stack' && e.kept :: Whitelisted(e.name)
    requires forall name: string :: Sum(stack', KeptOf(name)) == Sum(stack, KeptOf(name))
    ensures Balanced(out, stack')
  {
  }

  lemma PushSums(stack: seq<Entry>, e: Entry)
    ensures forall name: string :: Sum(stack + [e], KeptOf(name)) == Sum(stack, KeptOf(name)) + KeptOf(name)(e)
  {
  }

  lemma OpenKeepsBalance(st: State, name: string, attrs: Attrs)
    requires Balanced(st.out, st.stack)
    ensures var st' := OnOpen(st, name, attrs); Balanced(st'.out, st'.stack)
  {
    hide Balanced, Sum, RenderOpen, OneTag, Whitelisted;
    BalancedStack(st.out, st.stack);
    var rendered := RenderOpen(name, attrs);
    RenderedIsOneTag(name, attrs);
    var e := Entry(name, name !in UNWRAP && rendered != "");
    PushSums(st.stack, e);
    if name in BREAK {
      ChunkKeepsBalance(st.out, st.stack, Break("\n"), st.stack);
    } else if e.kept {
      ChunkKeepsBalance(st.out, st.stack, Open(name, rendered), st.stack + [e]);
    } else {
      StackKeepsBalance(st.out, st.stack, st.stack + [e]);
      assert st.out + [] == st.out;
    }
  }

  lemma BalancedStack(out: seq<Chunk>, stack: seq<Entry>)
    requires Balanced(out, stack)
    ensures forall e | e in stack && e.kept :: Whitelisted(e.name)
  {
  }

  /** The names with a rendering of their own are not unwrapped. */
  lemma WhitelistedNotUnwrapped(name: string)
    requires Whitelisted(name)
    ensures name !in UNWRAP && name !in BREAK && RenderClose(name, true) == "</" + name + ">"
  {
    assert |name| >= 1;
  }

  lemma CloseKeepsBalance(st: State, name: string)
    requires Balanced(st.out, st.stack)
    ensures var st' := OnClose(st, name); Balanced(st'.out, st'.stack)
  {
    hide Balanced, Sum, Whitelisted, OneTag;
    BalancedStack(st.out, st.stack);
    var top := Topmost(st.stack, name);
    assert st.out + [] == st.out;
    if top.None? {
      if name == "p" {
        ChunkKeepsBalance(st.out, st.stack, Break("\n\n"), st.stack);
      }
    } else {
      var e := st.stack[top.value];
      var stack' := Remove(st.stack, top.value);
      forall n: string ensures Sum(stack', KeptOf(n)) == Sum(st.stack, KeptOf(n)) - KeptOf(n)(e) {
        SumRemove(st.stack, top.value, n);
      }
      if e.kept {
        WhitelistedNotUnwrapped(name);
        ChunkKeepsBalance(st.out, st.stack, Close(name, RenderClose(name, true)), stack');
      } else if name == "p" {
        ChunkKeepsBalance(st.out, st.stack, Break("\n\n"), stack');
      } else {
        StackKeepsBalance(st.out, st.stack, stack');
      }
    }
  }

  lemma {:induction false} RunKeepsBalance(ts: seq<Token>, parse: Parser)
    ensures var st := RunTokens(START, ts, parse); Balanced(st.out, st.stack)
  {
    hide OnOpen, OnClose, Balanced;
    if |ts| == 0 {
      StartBalanced();
    } else {
      var n := |ts| - 1;
      RunKeepsBalance(ts[..n], parse);
      var st := RunTokens(START, ts[..n], parse);
      match ts[n]
      case TextToken(text) => PlainKeepsBalance(st, text);
      case TagToken(tag, _) =>
        CloseKeepsBalance(st, tag.name);
        OpenKeepsBalance(st, tag.name, parse(tag.attrs));
    }
  }

  lemma StartBalanced()
    ensures Balanced(START.out, START.stack)
  {
  }

  lemma PlainKeepsBalance(st: State, text: string)
    requires Balanced(st.out, st.stack)
    ensures Balanced(st.out + [Plain(text)], st.stack)
  {
    hide Balanced, Sum, Whitelisted;
    BalancedStack(st.out, st.stack);
    ChunkKeepsBalance(st.out, st.stack, Plain(text), st.stack);
  }

  lemma {:induction false} AutoCloseBalances(out: seq<Chunk>, stack: seq<Entry>)
    requires Balanced(out, stack)
    ensures Balanced(out + AutoClose(stack), [])
    decreases |stack|
  {
    hide Balanced, Sum, Whitelisted, RenderClose;
    BalancedStack(out, stack);
    if |stack| == 0 {
      assert out + AutoClose(stack) == out;
    } else {
      var n := |stack| - 1;
      var top := stack[n];
      PushSums(stack[..n], top);
      assert stack[..n] + [top] == stack;
      if top.kept {
        WhitelistedNotUnwrapped(top.name);
        var c := Close(top.name, RenderClose(top.name, true));
        ChunkKeepsBalance(out, stack, c, stack[..n]);
        AutoCloseBalances(out + [c], stack[..n]);
        assert AutoClose(stack) == [c] + AutoClose(stack[..n]);
        assert out + ([c] + AutoClose(stack[..n])) == out + [c] + AutoClose(stack[..n]);
      } else {
        StackKeepsBalance(out, stack, stack[..n]);
        AutoCloseBalances(out, stack[..n]);
        assert AutoClose(stack) == AutoClose(stack[..n]);
      }
    }
  }

  /** For any input, even mis-nested: no prefix of the output closes a name more often than
      it opened it, at the end every name is balanced, and only whitelisted tags come out. */
  lemma EveryNameBalances(ts: seq<Token>, parse: Parser, name: string, k: nat)
    requires k <= |Emitted(ts, parse)|
    ensures var out := Emitted(ts, parse);
            && Sum(out[..k], Surplus(name)) >= 0
            && Sum(out, Surplus(name)) == 0
            && forall c | c in out :: ChunkOk(c)
  {
    RunKeepsBalance(ts, parse);
    var st := RunTokens(START, ts, parse);
    AutoCloseBalances(st.out, st.stack);
  }

  // ----- any input: the text is kept -----

  function Words(ts: seq<Token>): seq<string> {
    if |ts| == 0 then []
    else Words(ts[..|ts| - 1]) + if ts[|ts| - 1].TextToken? then [ts[|ts| - 1].text] else []
  }

  function PlainChunks(out: seq<Chunk>): seq<string> {
    if |out| == 0 then []
    else PlainChunks(out[..|out| - 1]) + if out[|out| - 1].Plain? then [out[|out| - 1].s] else []
  }

  lemma {:induction false} PlainConcat(a: seq<Chunk>, b: seq<Chunk>)
    ensures PlainChunks(a + b) == PlainChunks(a) + PlainChunks(b)
  {
    if |b| == 0 {
      assert a + b == a;
    } else {
      PlainConcat(a, b[..|b| - 1]);
      assert (a + b)[..|a + b| - 1] == a + b[..|b| - 1];
    }
  }

  lemma {:induction false} NoPlain(out: seq<Chunk>)
    requires forall c | c in out :: !c.Plain?
    ensures PlainChunks(out) == []
  {
    if |out| > 0 {
      NoPlain(out[..|out| - 1]);
    }
  }

  lemma {:induction false} AutoCloseHasNoPlain(stack: seq<Entry>)
    ensures forall c | c in AutoClose(stack) :: !c.Plain?
  {
    if |stack| > 0 {
      AutoCloseHasNoPlain(stack[..|stack| - 1]);
    }
  }

  /** What one token adds to the output. */
  lemma TokenAdds(st: State, t: Token, parse: Parser) returns (added: seq<Chunk>)
    ensures OnToken(st, t, parse).out == st.out + added
    ensures t.TextToken? ==> added == [Plain(t.text)]
    ensures t.TagToken? ==> forall c | c in added :: !c.Plain?
  {
    hide RenderOpen, RenderClose;
    match t
    case TextToken(text) => added := [Plain(text)];
    case TagToken(tag, _) =>
      if tag.closing {
        var top := Topmost(st.stack, tag.name);
        added := ClosingChunks(tag.name, top.Some? && st.stack[top.value].kept);
      } else if tag.name in BREAK {
        added := [Break("\n")];
      } else {
        var rendered := RenderOpen(tag.name, parse(tag.attrs));
        added := if tag.name in UNWRAP || rendered == "" then [] else [Open(tag.name, rendered)];
      }
  }

  lemma {:induction false} RunKeepsText(ts: seq<Token>, parse: Parser)
    ensures PlainChunks(RunTokens(START, ts, parse).out) == Words(ts)
  {
    hide OnToken;
    if |ts| > 0 {
      var n := |ts| - 1;
      RunKeepsText(ts[..n], parse);
      var st := RunTokens(START, ts[..n], parse);
      var added := TokenAdds(st, ts[n], parse);
      PlainConcat(st.out, added);
      if ts[n].TagToken? {
        NoPlain(added);
      } else {
        assert PlainChunks(added) == [ts[n].text];
      }
    }
  }

  /** The text between tags comes out unchanged, complete and in order. */
  lemma TextIsKept(ts: seq<Token>, parse: Parser)
    ensures PlainChunks(Emitted(ts, parse)) == Words(ts)
  {
    RunKeepsText(ts, parse);
    var st := RunTokens(START, ts, parse);
    PlainConcat(st.out, AutoClose(st.stack));
    AutoCloseHasNoPlain(st.stack);
    NoPlain(AutoClose(st.stack));
  }

  // ----- properly nested input -----

  /** A forest of elements: the grammar of properly nested markup, with br and hr as plain leaves. */
  datatype Forest =
    | Empty
    | Word(text: string, rest: Forest)
    | Void(token: Token, rest: Forest)
    | Element(open: Token, inner: Forest, close: Token, rest: Forest)

  predicate IsVoid(t: Token) { t.TagToken? && t.tag.name in BREAK }

  predicate IsOpen(t: Token) { t.TagToken? && !t.tag.closing && t.tag.name !in BREAK }

  predicate IsClose(t: Token) { t.TagToken? && t.tag.closing && t.tag.name !in BREAK }

  ghost predicate Proper(f: Forest) {
    match f
    case Empty => true
    case Word(_, rest) => Proper(rest)
    case Void(t, rest) => IsVoid(t) && Proper(rest)
    case Element(o, inner, c, rest) =>
      IsOpen(o) && IsClose(c) && o.tag.name == c.tag.name && Proper(inner) && Proper(rest)
  }

  /** The tokens of a forest, as the editor writes them. */
  function Flatten(f: Forest): seq<Token> {
    match f
    case Empty => []
    case Word(text, rest) => [TextToken(text)] + Flatten(rest)
    case Void(t, rest) => [t] + Flatten(rest)
    case Element(o, inner, c, rest) => [o] + Flatten(inner) + [c] + Flatten(rest)
  }

  /** What a forest should become: elements without a rendering are unwrapped, opening and
      closing tag together; a paragraph ends in a blank line. */
  function Rendered(f: Forest, parse: Parser): seq<Chunk> {
    match f
    case Empty => []
    case Word(text, rest) => [Plain(text)] + Rendered(rest, parse)
    case Void(t, rest) => (if t.TagToken? && !t.tag.closing then [Break("\n")] else []) + Rendered(rest, parse)
    case Element(o, inner, c, rest) =>
      var name := if o.TagToken? then o.tag.name else "";
      var tag := if o.TagToken? then RenderOpen(name, parse(o.tag.attrs)) else "";
      var body := Rendered(inner, parse);
      (if name == "p" then body + [Break("\n\n")]
       else if name in UNWRAP || tag == "" then body
       else [Open(name, tag)] + body + [Close(name, "</" + name + ">")])
      + Rendered(rest, parse)
  }

  predicate NoBreaks(stack: seq<Entry>) { forall e | e in stack :: e.name !in BREAK }

  lemma OneToken(st: State, t: Token, parse: Parser)
    ensures RunTokens(st, [t], parse) == OnToken(st, t, parse)
  {
  }

  /** Closing the element just opened: its entry is on top. */
  lemma CloseTop(out: seq<Chunk>, stack: seq<Entry>, e: Entry)
    ensures OnClose(State(out, stack + [e]), e.name) == State(out + ClosingChunks(e.name, e.kept), stack)
  {
  }

  /** What an element adds around the output of its inside. */
  lemma ElementRuns(out: seq<Chunk>, stack: seq<Entry>, o: Token, body: seq<Chunk>, c: Token, parse: Parser)
    requires IsOpen(o) && IsClose(c) && o.tag.name == c.tag.name
    ensures var st1 := OnToken(State(out, stack), o, parse);
            var name, tag := o.tag.name, RenderOpen(o.tag.name, parse(o.tag.attrs));
            OnToken(State(st1.out + body, st1.stack), c, parse) == State(out +
              (if name == "p" then body + [Break("\n\n")]
               else if name in UNWRAP || tag == "" then body
               else [Open(name, tag)] + body + [Close(name, "</" + name + ">")]), stack)
    ensures var st1 := OnToken(State(out, stack), o, parse);
            NoBreaks(stack) ==> NoBreaks(st1.stack)
  {
    hide RenderOpen, Whitelisted, OneTag;
    var name, tag := o.tag.name, RenderOpen(o.tag.name, parse(o.tag.attrs));
    var e := Entry(name, name !in UNWRAP && tag != "");
    var st1 := OnToken(State(out, stack), o, parse);
    assert st1.stack == stack + [e];
    CloseTop(st1.out + body, stack, e);
    RenderedIsOneTag(name, parse(o.tag.attrs));
    if e.kept {
      WhitelistedNotUnwrapped(name);
      assert out + [Open(name, tag)] + body + [Close(name, "</" + name + ">")]
             == out + ([Open(name, tag)] + body + [Close(name, "</" + name + ">")]);
    } else {
      assert st1.out == out + [];
      assert RenderClose(name, false) == "";
    }
  }

  /** The machine renders a forest and leaves the stack as it found it. */
  lemma {:induction false} ForestRuns(st: State, f: Forest, parse: Parser)
    requires Proper(f) && NoBreaks(st.stack)
    ensures RunTokens(st, Flatten(f), parse) == State(st.out + Rendered(f, parse), st.stack)
    decreases f, 0
  {
    hide RunTokens, OnToken, RenderOpen, OnOpen, OnClose, NoBreaks;
    match f
    case Empty => RunEmpty(st, parse);
    case Word(text, rest) =>
      WordRuns(st, text, parse);
      ThenRest(st, [TextToken(text)], [Plain(text)], rest, parse);
    case Void(t, rest) =>
      VoidRuns(st, t, parse);
      ThenRest(st, [t], if t.tag.closing then [] else [Break("\n")], rest, parse);
    case Element(o, inner, c, rest) =>
      var st1 := OnToken(st, o, parse);
      ElementRuns(st.out, st.stack, o, Rendered(inner, parse), c, parse);
      ForestRuns(st1, inner, parse);
      OneToken(st, o, parse);
      RunConcat(st, [o], Flatten(inner), parse);
      RunAppend(st, [o] + Flatten(inner), c, parse);
      var name, tag := o.tag.name, RenderOpen(o.tag.name, parse(o.tag.attrs));
      var body := Rendered(inner, parse);
      ThenRest(st, [o] + Flatten(inner) + [c],
               if name == "p" then body + [Break("\n\n")]
               else if name in UNWRAP || tag == "" then body
               else [Open(name, tag)] + body + [Close(name, "</" + name + ">")], rest, parse);
  }

  lemma RunEmpty(st: State, parse: Parser)
    ensures RunTokens(st, [], parse) == State(st.out + [], st.stack)
  {
  }

  lemma WordRuns(st: State, text: string, parse: Parser)
    ensures RunTokens(st, [TextToken(text)], parse) == State(st.out + [Plain(text)], st.stack)
  {
  }

  lemma VoidRuns(st: State, t: Token, parse: Parser)
    requires IsVoid(t) && NoBreaks(st.stack)
    ensures RunTokens(st, [t], parse) == State(st.out + if t.tag.closing then [] else [Break("\n")], st.stack)
  {
  }

  lemma {:induction false} ThenRest(st: State, head: seq<Token>, chunks: seq<Chunk>, rest: Forest, parse: Parser)
    requires RunTokens(st, head, parse) == State(st.out + chunks, st.stack)
    requires Proper(rest) && NoBreaks(st.stack)
    ensures RunTokens(st, head + Flatten(rest), parse) == State(st.out + (chunks + Rendered(rest, parse)), st.stack)
    decreases rest, 1
  {
    hide OnToken, NoBreaks, Rendered;
    RunConcat(st, head, Flatten(rest), parse);
    ForestRuns(State(st.out + chunks, st.stack), rest, parse);
    assert st.out + chunks + Rendered(rest, parse) == st.out + (chunks + Rendered(rest, parse));
  }

  // ----- properly nested words are exactly the forests -----

  /** The names still open after the tokens, starting from some open ones, or nothing
      once a close has not matched the last open. */
  function OpenFrom(names: seq<string>, ts: seq<Token>): Option<seq<string>> {
    if |ts| == 0 then Some(names)
    else
      var before, t := OpenFrom(names, ts[..|ts| - 1]), ts[|ts| - 1];
      if before.None? then None
      else if IsOpen(t) then Some(before.value + [t.tag.name])
      else if IsClose(t) then
        if |before.value| > 0 && before.value[|before.value| - 1] == t.tag.name
        then Some(before.value[..|before.value| - 1]) else None
      else before
  }

  predicate ProperlyNested(ts: seq<Token>) { OpenFrom([], ts) == Some([]) }

  lemma {:induction false} OpenFromConcat(names: seq<string>, a: seq<Token>, b: seq<Token>)
    requires OpenFrom(names, a).Some?
    ensures OpenFrom(names, a + b) == OpenFrom(OpenFrom(names, a).value, b)
  {
    if |b| == 0 {
      assert a + b == a;
    } else {
      OpenFromConcat(names, a, b[..|b| - 1]);
      assert (a + b)[..|a + b| - 1] == a + b[..|b| - 1];
    }
  }

  lemma OpenFromOne(names: seq<string>, t: Token)
    ensures IsOpen(t) ==> OpenFrom(names, [t]) == Some(names + [t.tag.name])
    ensures IsClose(t) ==> OpenFrom(names + [t.tag.name], [t]) == Some(names)
    ensures !IsOpen(t) && !IsClose(t) ==> OpenFrom(names, [t]) == Some(names)
  {
  }

  lemma {:induction false} ForestsNest(f: Forest, names: seq<string>)
    requires Proper(f)
    ensures OpenFrom(names, Flatten(f)) == Some(names)
    decreases f
  {
    hide OpenFrom;
    match f
    case Empty => NothingRead(names);
    case Word(text, rest) =>
      OpenFromOne(names, TextToken(text));
      ForestsNest(rest, names);
      OpenFromConcat(names, [TextToken(text)], Flatten(rest));
    case Void(t, rest) =>
      OpenFromOne(names, t);
      ForestsNest(rest, names);
      OpenFromConcat(names, [t], Flatten(rest));
    case Element(o, inner, c, rest) =>
      var inside := names + [o.tag.name];
      OpenFromOne(names, o);
      ForestsNest(inner, inside);
      OpenFromConcat(names, [o], Flatten(inner));
      OpenFromOne(names, c);
      OpenFromConcat(names, [o] + Flatten(inner), [c]);
      ForestsNest(rest, names);
      OpenFromConcat(names, [o] + Flatten(inner) + [c], Flatten(rest));
  }

  lemma NothingRead(names: seq<string>)
    ensures OpenFrom(names, []) == Some(names)
  {
  }

  /** A token list is properly nested exactly when it is the text of a forest. */
  lemma NestedIsForest(ts: seq<Token>)
    ensures ProperlyNested(ts) <==> exists f :: Proper(f) && Flatten(f) == ts
  {
    if ProperlyNested(ts) {
      var p := Read(ts);
      assert Proper(p.done) && Flatten(p.done) == ts;
      assert exists f :: Proper(f) && Flatten(f) == ts;
    } else if exists f :: Proper(f) && Flatten(f) == ts {
      var f :| Proper(f) && Flatten(f) == ts;
      ForestsNest(f, []);
    }
  }

  /** A partly read forest: finished trees, and the elements still open around the reader. */
  datatype Path = Top(done: Forest) | In(outer: Path, open: Token, done: Forest)

  ghost predicate PathOk(p: Path) {
    Proper(p.done) && (p.In? ==> IsOpen(p.open) && PathOk(p.outer))
  }

  function PathTokens(p: Path): seq<Token> {
    if p.Top? then Flatten(p.done) else PathTokens(p.outer) + [p.open] + Flatten(p.done)
  }

  function PathNames(p: Path): seq<string> {
    if p.Top? then [] else PathNames(p.outer) + if p.open.TagToken? then [p.open.tag.name] else []
  }

  function Append(f: Forest, g: Forest): Forest {
    match f
    case Empty => g
    case Word(text, rest) => Word(text, Append(rest, g))
    case Void(t, rest) => Void(t, Append(rest, g))
    case Element(o, inner, c, rest) => Element(o, inner, c, Append(rest, g))
  }

  lemma Regroup(a: seq<Token>, b: seq<Token>, c: seq<Token>)
    ensures a + (b + c) == a + b + c
  {
  }

  lemma {:induction false} AppendFlattens(f: Forest, g: Forest)
    requires Proper(f) && Proper(g)
    ensures Proper(Append(f, g)) && Flatten(Append(f, g)) == Flatten(f) + Flatten(g)
  {
    hide IsOpen, IsClose, IsVoid;
    match f
    case Empty =>
    case Word(text, rest) =>
      AppendFlattens(rest, g);
      Regroup([TextToken(text)], Flatten(rest), Flatten(g));
    case Void(t, rest) =>
      AppendFlattens(rest, g);
      Regroup([t], Flatten(rest), Flatten(g));
    case Element(o, inner, c, rest) =>
      AppendFlattens(rest, g);
      Regroup([o] + Flatten(inner) + [c], Flatten(rest), Flatten(g));
  }

  /** One finished tree more. */
  lemma Grow(p: Path, g: Forest) returns (p': Path)
    requires PathOk(p) && Proper(g)
    ensures PathOk(p') && PathNames(p') == PathNames(p) && PathTokens(p') == PathTokens(p) + Flatten(g)
  {
    AppendFlattens(p.done, g);
    p' := p.(done := Append(p.done, g));
  }

  /** One token more: open an element, close the innermost one, or add a leaf. */
  lemma ReadToken(q: Path, t: Token) returns (p: Path)
    requires PathOk(q) && (IsClose(t) ==> q.In? && q.open.TagToken? && q.open.tag.name == t.tag.name)
    ensures PathOk(p) && PathTokens(p) == PathTokens(q) + [t]
    ensures PathNames(p) == if IsOpen(t) then PathNames(q) + [t.tag.name]
                            else if IsClose(t) then PathNames(q.outer) else PathNames(q)
  {
    hide Proper, Append;
    EmptyIsProper();
    if IsOpen(t) {
      p := In(q, t, Empty);
    } else if IsClose(t) {
      ElementIsProper(q.open, q.done, t);
      p := Grow(q.outer, Element(q.open, q.done, t, Empty));
      Regroup(PathTokens(q.outer), [q.open] + Flatten(q.done), [t]);
      Regroup(PathTokens(q.outer), [q.open], Flatten(q.done));
    } else {
      LeafIsProper(t);
      p := Grow(q, if t.TextToken? then Word(t.text, Empty) else Void(t, Empty));
    }
  }

  lemma {:induction false} Read(ts: seq<Token>) returns (p: Path)
    requires OpenFrom([], ts).Some?
    ensures PathOk(p) && PathTokens(p) == ts && PathNames(p) == OpenFrom([], ts).value
  {
    hide Proper, Flatten;
    if |ts| == 0 {
      p := Top(Empty);
      EmptyIsProper();
    } else {
      var q := Read(ts[..|ts| - 1]);
      p := ReadToken(q, ts[|ts| - 1]);
      assert ts == ts[..|ts| - 1] + [ts[|ts| - 1]];
    }
  }

  lemma EmptyIsProper()
    ensures Proper(Empty) && Flatten(Empty) == []
  {
  }

  lemma LeafIsProper(t: Token)
    requires !IsOpen(t) && !IsClose(t)
    ensures Proper(if t.TextToken? then Word(t.text, Empty) else Void(t, Empty))
  {
  }

  lemma ElementIsProper(o: Token, inner: Forest, c: Token)
    requires IsOpen(o) && IsClose(c) && o.tag.name == c.tag.name && Proper(inner)
    ensures Proper(Element(o, inner, c, Empty))
    ensures Flatten(Element(o, inner, c, Empty)) == [o] + Flatten(inner) + [c]
  {
  }

  // ----- nested output -----

  /** The names still open after the emitted chunks, starting from some open ones. */
  function OpenAfter(names: seq<string>, out: seq<Chunk>): Option<seq<string>> {
    if |out| == 0 then Some(names)
    else
      var before, c := OpenAfter(names, out[..|out| - 1]), out[|out| - 1];
      if before.None? then None
      else if c.Open? then Some(before.value + [c.name])
      else if c.Close? then
        if |before.value| > 0 && before.value[|before.value| - 1] == c.name
        then Some(before.value[..|before.value| - 1]) else None
      else before
  }

  lemma {:induction false} OpenAfterConcat(names: seq<string>, a: seq<Chunk>, b: seq<Chunk>)
    requires OpenAfter(names, a).Some?
    ensures OpenAfter(names, a + b) == OpenAfter(OpenAfter(names, a).value, b)
  {
    if |b| == 0 {
      assert a + b == a;
    } else {
      OpenAfterConcat(names, a, b[..|b| - 1]);
      assert (a + b)[..|a + b| - 1] == a + b[..|b| - 1];
    }
  }

  lemma OpenAfterOne(names: seq<string>, c: Chunk)
    ensures c.Open? ==> OpenAfter(names, [c]) == Some(names + [c.name])
    ensures c.Close? ==> OpenAfter(names + [c.name], [c]) == Some(names)
    ensures !c.Open? && !c.Close? ==> OpenAfter(names, [c]) == Some(names)
  {
  }

  lemma WrapNests(names: seq<string>, name: string, tag: string, body: seq<Chunk>, end: string)
    requires OpenAfter(names + [name], body) == Some(names + [name])
    ensures OpenAfter(names, [Open(name, tag)] + body + [Close(name, end)]) == Some(names)
  {
    OpenAfterOne(names, Open(name, tag));
    OpenAfterConcat(names, [Open(name, tag)], body);
    OpenAfterOne(names, Close(name, end));
    OpenAfterConcat(names, [Open(name, tag)] + body, [Close(name, end)]);
  }

  lemma {:induction false} RenderedNests(f: Forest, parse: Parser, names: seq<string>)
    ensures OpenAfter(names, Rendered(f, parse)) == Some(names)
    decreases f
  {
    hide OpenAfter, RenderOpen;
    match f
    case Empty => NothingOpens(names);
    case Word(text, rest) =>
      OpenAfterOne(names, Plain(text));
      RenderedNests(rest, parse, names);
      OpenAfterConcat(names, [Plain(text)], Rendered(rest, parse));
    case Void(t, rest) =>
      NothingOpens(names);
      OpenAfterOne(names, Break("\n"));
      RenderedNests(rest, parse, names);
      OpenAfterConcat(names, if t.TagToken? && !t.tag.closing then [Break("\n")] else [], Rendered(rest, parse));
    case Element(o, inner, c, rest) =>
      var name := if o.TagToken? then o.tag.name else "";
      var tag := if o.TagToken? then RenderOpen(name, parse(o.tag.attrs)) else "";
      var body := Rendered(inner, parse);
      var wrapped := if name == "p" then body + [Break("\n\n")]
                     else if name in UNWRAP || tag == "" then body
                     else [Open(name, tag)] + body + [Close(name, "</" + name + ">")];
      RenderedNests(inner, parse, names);
      RenderedNests(inner, parse, names + [name]);
      OpenAfterOne(names, Break("\n\n"));
      OpenAfterConcat(names, body, [Break("\n\n")]);
      WrapNests(names, name, tag, body, "</" + name + ">");
      RenderedNests(rest, parse, names);
      OpenAfterConcat(names, wrapped, Rendered(rest, parse));
      assert Rendered(f, parse) == wrapped + Rendered(rest, parse);
  }

  lemma NothingOpens(names: seq<string>)
    ensures OpenAfter(names, []) == Some(names)
  {
  }

  /** Properly nested input: it is a forest, the output is that forest rendered, it is
      properly nested itself, and nothing is left for the final closing loop. */
  lemma NestedStaysNested(ts: seq<Token>, parse: Parser)
    requires ProperlyNested(ts)
    ensures exists f :: Proper(f) && Flatten(f) == ts && Emitted(ts, parse) == Rendered(f, parse)
    ensures OpenAfter([], Emitted(ts, parse)) == Some([])
    ensures RunTokens(START, ts, parse).stack == [] && AutoClose(RunTokens(START, ts, parse).stack) == []
  {
    var p := Read(ts);
    assert p.Top?;
    var f := p.done;
    ForestRuns(START, f, parse);
    assert [] + Rendered(f, parse) == Rendered(f, parse);
    assert Rendered(f, parse) + AutoClose([]) == Rendered(f, parse);
    RenderedNests(f, parse, []);
  }

  // ----- the text of nested output -----

  /** What a forest reads like: words as they are, breaks and paragraphs as newlines, and each
      element's kept tags around its inside. */
  function Markup(f: Forest, parse: Parser): string {
    match f
    case Empty => ""
    case Word(text, rest) => text + Markup(rest, parse)
    case Void(t, rest) => (if t.TagToken? && !t.tag.closing then "\n" else "") + Markup(rest, parse)
    case Element(o, inner, c, rest) =>
      var name := if o.TagToken? then o.tag.name else "";
      var tag := if o.TagToken? then RenderOpen(name, parse(o.tag.attrs)) else "";
      var body := Markup(inner, parse);
      (if name == "p" then body + "\n\n" else if tag == "" then body else tag + body + "</" + name + ">")
      + Markup(rest, parse)
  }

  lemma UnwrappedIsDropped(name: string, attrs: Attrs)
    requires name in UNWRAP
    ensures RenderOpen(name, attrs) == ""
  {
    OthersAreDropped(name, attrs);
  }

  lemma {:induction false} RenderedIsMarkup(f: Forest, parse: Parser)
    ensures Join(Rendered(f, parse)) == Markup(f, parse)
    decreases f
  {
    hide Join, RenderOpen;
    match f
    case Empty => JoinNone();
    case Word(text, rest) =>
      RenderedIsMarkup(rest, parse);
      JoinOne(Plain(text));
      JoinConcat([Plain(text)], Rendered(rest, parse));
    case Void(t, rest) =>
      RenderedIsMarkup(rest, parse);
      JoinOne(Break("\n"));
      JoinNone();
      JoinConcat(if t.TagToken? && !t.tag.closing then [Break("\n")] else [], Rendered(rest, parse));
    case Element(o, inner, c, rest) =>
      var name := if o.TagToken? then o.tag.name else "";
      var tag := if o.TagToken? then RenderOpen(name, parse(o.tag.attrs)) else "";
      var body := Rendered(inner, parse);
      var wrapped := if name == "p" then body + [Break("\n\n")]
                     else if name in UNWRAP || tag == "" then body
                     else [Open(name, tag)] + body + [Close(name, "</" + name + ">")];
      RenderedIsMarkup(inner, parse);
      RenderedIsMarkup(rest, parse);
      JoinOne(Break("\n\n"));
      JoinConcat(body, [Break("\n\n")]);
      JoinThree(Open(name, tag), body, Close(name, "</" + name + ">"));
      if name in UNWRAP && o.TagToken? {
        UnwrappedIsDropped(name, parse(o.tag.attrs));
      }
      JoinConcat(wrapped, Rendered(rest, parse));
      assert Rendered(f, parse) == wrapped + Rendered(rest, parse);
      hide Rendered;
  }

  /** The result for properly nested input is the text of its forest, tidied up. */
  lemma NestedIsMarkup(s: string, f: Forest, parse: Parser)
    requires Proper(f) && Flatten(f) == Tokens(s, 0)
    ensures Convert(s, parse) == Whitespace.FinalPass(Markup(f, parse))
  {
    hide Tokens, Rendered, Proper, Flatten, Whitespace.FinalPass;
    ForestRuns(START, f, parse);
    RenderedIsMarkup(f, parse);
    assert [] + Rendered(f, parse) == Rendered(f, parse);
    assert Rendered(f, parse) + AutoClose([]) == Rendered(f, parse);
  }
}
