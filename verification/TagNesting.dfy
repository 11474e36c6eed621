/** Exactly when the converter's output is properly nested, for any input: the stack lets a
    close take its entry out of the middle, and the output shows it. */
module TagNesting {
  import opened Options
  import opened TelegramHtml
  import opened TagMachine
  import opened TagGuarantees

  /** The names of the emitted tags that are still open, in order. */
  function KeptNames(stack: seq<Entry>): seq<string> {
    if |stack| == 0 then []
    else
      var before, last := KeptNames(stack[..|stack| - 1]), stack[|stack| - 1];
      if last.kept then before + [last.name] else before
  }

  /** The token does not close an emitted tag across another one opened after it. */
  predicate ClosesInside(stack: seq<Entry>, t: Token) {
    t.TagToken? && t.tag.closing ==>
      var top := Topmost(stack, t.tag.name);
      top.Some? && stack[top.value].kept ==> forall k | top.value < k < |stack| :: !stack[k].kept
  }

  predicate NeverCrosses(ts: seq<Token>, parse: Parser) {
    |ts| > 0 ==>
      && NeverCrosses(ts[..|ts| - 1], parse)
      && ClosesInside(RunTokens(START, ts[..|ts| - 1], parse).stack, ts[|ts| - 1])
  }

  // ----- the names that are kept -----

  lemma {:induction false} KeptConcat(a: seq<Entry>, b: seq<Entry>)
    ensures KeptNames(a + b) == KeptNames(a) + KeptNames(b)
  {
    if |b| == 0 {
      assert a + b == a;
    } else {
      var b', last := b[..|b| - 1], b[|b| - 1];
      KeptConcat(a, b');
      assert (a + b)[..|a + b| - 1] == a + b';
    }
  }

  lemma {:induction false} NoneKept(stack: seq<Entry>)
    requires forall k | 0 <= k < |stack| :: !stack[k].kept
    ensures KeptNames(stack) == []
  {
    if |stack| > 0 {
      NoneKept(stack[..|stack| - 1]);
    }
  }

  lemma {:induction false} SomeKept(stack: seq<Entry>, name: string)
    requires forall k | 0 <= k < |stack| :: stack[k].name != name
    requires exists k :: 0 <= k < |stack| && stack[k].kept
    ensures |KeptNames(stack)| > 0 && KeptNames(stack)[|KeptNames(stack)| - 1] != name
  {
    var n := |stack| - 1;
    if !stack[n].kept {
      var k :| 0 <= k < |stack| && stack[k].kept;
      assert stack[..n][k].kept;
      SomeKept(stack[..n], name);
    }
  }

  /** The entry at i splits the stack, and with it the names. */
  lemma KeptAround(stack: seq<Entry>, i: nat)
    requires i < |stack|
    ensures var below, above := KeptNames(stack[..i]), KeptNames(stack[i + 1..]);
            && KeptNames(Remove(stack, i)) == below + above
            && KeptNames(stack) == (if stack[i].kept then below + [stack[i].name] else below) + above
  {
    hide KeptNames;
    KeptConcat(stack[..i], stack[i + 1..]);
    KeptConcat(stack[..i] + [stack[i]], stack[i + 1..]);
    SplitAt(stack, i);
    PushedNames(stack[..i], stack[i]);
  }

  lemma SplitAt(stack: seq<Entry>, i: nat)
    requires i < |stack|
    ensures stack == stack[..i] + [stack[i]] + stack[i + 1..]
  {
  }

  // ----- one token -----

  lemma {:induction false} NoneStays(names: seq<string>, a: seq<Chunk>, b: seq<Chunk>)
    requires OpenAfter(names, a).None?
    ensures OpenAfter(names, a + b).None?
  {
    if |b| == 0 {
      assert a + b == a;
    } else {
      NoneStays(names, a, b[..|b| - 1]);
      assert (a + b)[..|a + b| - 1] == a + b[..|b| - 1];
    }
  }

  lemma OpenAfterOneMore(out: seq<Chunk>, c: Chunk)
    requires OpenAfter([], out).Some?
    ensures var names := OpenAfter([], out).value;
            OpenAfter([], out + [c]) ==
              if c.Open? then Some(names + [c.name])
              else if c.Close? then
                if |names| > 0 && names[|names| - 1] == c.name then Some(names[..|names| - 1]) else None
              else Some(names)
  {
    assert (out + [c])[..|out|] == out;
  }

  /** What nesting and stack agree on: nothing has crossed, and the open tags are the kept ones. */
  ghost predicate InStep(st: State) { OpenAfter([], st.out) == Some(KeptNames(st.stack)) }

  lemma PlainNests(st: State, c: Chunk)
    requires InStep(st) && !c.Open? && !c.Close?
    ensures InStep(State(st.out + [c], st.stack))
  {
    OpenAfterOneMore(st.out, c);
  }

  lemma OpenNests(st: State, name: string, attrs: Attrs)
    requires InStep(st)
    ensures InStep(OnOpen(st, name, attrs))
  {
    hide OpenAfter, KeptNames, RenderOpen, Whitelisted, OneTag;
    var rendered := RenderOpen(name, attrs);
    var e := Entry(name, name !in UNWRAP && rendered != "");
    PushedNames(st.stack, e);
    OpenAfterOneMore(st.out, Break("\n"));
    OpenAfterOneMore(st.out, Open(name, rendered));
    assert st.out + [] == st.out;
  }

  lemma PushedNames(stack: seq<Entry>, e: Entry)
    ensures KeptNames(stack + [e]) == if e.kept then KeptNames(stack) + [e.name] else KeptNames(stack)
  {
    assert (stack + [e])[..|stack|] == stack;
  }

  /** A close of a tag that was not emitted shows nothing but a paragraph's break. */
  lemma SilentCloseNests(st: State, name: string)
    requires InStep(st)
    requires var top := Topmost(st.stack, name); top.Some? ==> !st.stack[top.value].kept
    ensures InStep(OnClose(st, name))
  {
    hide OpenAfter, KeptNames, ClosingChunks;
    var top := Topmost(st.stack, name);
    OpenAfterOneMore(st.out, Break("\n\n"));
    ClosingIsSilent(name);
    assert st.out + [] == st.out;
    if top.Some? {
      KeptAround(st.stack, top.value);
    }
  }

  lemma ClosingIsOne(name: string)
    requires Whitelisted(name)
    ensures ClosingChunks(name, true) == [Close(name, RenderClose(name, true))]
  {
    WhitelistedNotUnwrapped(name);
    assert "p" in UNWRAP;
  }

  lemma ClosingIsSilent(name: string)
    ensures ClosingChunks(name, false) == if name == "p" then [Break("\n\n")] else []
  {
  }

  /** A close of an emitted tag nests exactly when no emitted tag is open inside it. */
  lemma CloseNests(st: State, name: string)
    requires InStep(st) && Balanced(st.out, st.stack)
    requires var top := Topmost(st.stack, name); top.Some? && st.stack[top.value].kept
    ensures var top := Topmost(st.stack, name); var st' := OnClose(st, name);
            if forall k | top.value < k < |st.stack| :: !st.stack[k].kept then InStep(st')
            else OpenAfter([], st'.out).None?
  {
    hide OpenAfter, KeptNames, Whitelisted, Balanced, RenderClose;
    var i := Topmost(st.stack, name).value;
    var inside := st.stack[i + 1..];
    BalancedStack(st.out, st.stack);
    WhitelistedNotUnwrapped(name);
    ClosingIsOne(name);
    KeptAround(st.stack, i);
    OpenAfterOneMore(st.out, Close(name, RenderClose(name, true)));
    if forall k | i < k < |st.stack| :: !st.stack[k].kept {
      NoneKept(inside);
      var below := KeptNames(st.stack[..i]);
      assert KeptNames(st.stack) == below + [name];
      assert KeptNames(Remove(st.stack, i)) == below;
    } else {
      var k :| i < k < |st.stack| && st.stack[k].kept;
      assert inside[k - i - 1].kept;
      SomeKept(inside, name);
    }
  }

  lemma TokenNests(st: State, t: Token, parse: Parser)
    requires InStep(st) && Balanced(st.out, st.stack)
    ensures if ClosesInside(st.stack, t) then InStep(OnToken(st, t, parse))
            else OpenAfter([], OnToken(st, t, parse).out).None?
  {
    hide InStep, Balanced, OnOpen, OnClose, OpenAfter;
    match t
    case TextToken(text) => PlainNests(st, Plain(text));
    case TagToken(tag, _) =>
      if !tag.closing {
        OpenNests(st, tag.name, parse(tag.attrs));
      } else if Topmost(st.stack, tag.name).Some? && st.stack[Topmost(st.stack, tag.name).value].kept {
        CloseNests(st, tag.name);
      } else {
        SilentCloseNests(st, tag.name);
      }
  }

  // ----- the whole input -----

  /** Chunks are only ever appended. */
  lemma TokenExtends(st: State, t: Token, parse: Parser)
    requires OpenAfter([], st.out).None?
    ensures OpenAfter([], OnToken(st, t, parse).out).None?
  {
    var added := TokenAdds(st, t, parse);
    NoneStays([], st.out, added);
  }

  lemma {:induction false} RunNests(ts: seq<Token>, parse: Parser)
    ensures var st := RunTokens(START, ts, parse);
            if NeverCrosses(ts, parse) then InStep(st) else OpenAfter([], st.out).None?
  {
    hide OnToken, OpenAfter, InStep, ClosesInside;
    if |ts| == 0 {
      NothingIsInStep();
    } else {
      var n := |ts| - 1;
      var st := RunTokens(START, ts[..n], parse);
      RunNests(ts[..n], parse);
      RunKeepsBalance(ts[..n], parse);
      if NeverCrosses(ts[..n], parse) {
        TokenNests(st, ts[n], parse);
      } else {
        TokenExtends(st, ts[n], parse);
      }
    }
  }

  lemma NothingIsInStep()
    ensures InStep(START)
  {
  }

  lemma {:induction false} AutoCloseNests(out: seq<Chunk>, stack: seq<Entry>)
    requires OpenAfter([], out) == Some(KeptNames(stack))
    ensures OpenAfter([], out + AutoClose(stack)) == Some([])
    decreases |stack|
  {
    hide OpenAfter;
    if |stack| == 0 {
      assert out + [] == out;
    } else {
      var n := |stack| - 1;
      var top := stack[n];
      if top.kept {
        var c := Close(top.name, RenderClose(top.name, true));
        OpenAfterOneMore(out, c);
        AutoCloseNests(out + [c], stack[..n]);
        assert out + ([c] + AutoClose(stack[..n])) == out + [c] + AutoClose(stack[..n]);
      } else {
        AutoCloseNests(out, stack[..n]);
        assert AutoClose(stack) == AutoClose(stack[..n]);
      }
    }
  }

  /** For any input, the output is properly nested exactly when no close crosses an emitted
      tag that was opened after its own. */
  lemma NestedExactly(ts: seq<Token>, parse: Parser)
    ensures OpenAfter([], Emitted(ts, parse)) == Some([]) <==> NeverCrosses(ts, parse)
  {
    var st := RunTokens(START, ts, parse);
    RunNests(ts, parse);
    if NeverCrosses(ts, parse) {
      AutoCloseNests(st.out, st.stack);
    } else {
      NoneStays([], st.out, AutoClose(st.stack));
    }
  }

  /** <b><i></b></i> */
  const CROSSED := [
    TagToken(Tag(false, "b", ""), "<b>"), TagToken(Tag(false, "i", ""), "<i>"),
    TagToken(Tag(true, "b", ""), "</b>"), TagToken(Tag(true, "i", ""), "</i>")]

  /** Its tags come out as they went in, so the output is not properly nested either. */
  lemma CrossedExample(parse: Parser)
    ensures OpenAfter([], Emitted(CROSSED, parse)) != Some([])
  {
    var b, i := CROSSED[0], CROSSED[1];
    assert CROSSED[..3] == [] + [b] + [i] + [CROSSED[2]] && CROSSED[..3][..2] == [] + [b] + [i];
    RunNothing(parse);
    RunAppend(START, [], b, parse);
    RunAppend(START, [] + [b], i, parse);
    CrossedStack(parse(""));
    assert !NeverCrosses(CROSSED[..3], parse);
    NestedExactly(CROSSED, parse);
  }

  lemma CrossedStack(attrs: Attrs)
    ensures var st := OnOpen(OnOpen(START, "b", attrs), "i", attrs);
            st.stack == [Entry("b", true), Entry("i", true)] && Topmost(st.stack, "b") == Some(0)
  {
    var stack := [Entry("b", true), Entry("i", true)];
    assert stack[..1][..0] == [];
  }
}
