/** The converter from the editor's HTML to the subset Telegram accepts: tokens,
    the rendering of one tag, and the stack machine that emits chunks. The rewriting
    of escaped tags happens before, and attribute parsing is a parameter. */
module TelegramHtml {
  import Text

  // ----- tokens -----

  datatype Tag = Tag(closing: bool, name: string, attrs: string)

  datatype Token = TextToken(text: string) | TagToken(tag: Tag, slice: string)

  predicate IsLetter(c: char) { 'a' <= c <= 'z' || 'A' <= c <= 'Z' }

  predicate IsNameChar(c: char) { IsLetter(c) || '0' <= c <= '9' || c == '-' }

  /** End of the longest run of name characters from i. */
  function NameEnd(s: string, i: nat): (e: nat)
    requires i <= |s|
    ensures i <= e <= |s| && (forall k | i <= k < e :: IsNameChar(s[k])) && (e < |s| ==> !IsNameChar(s[e]))
    decreases |s| - i
  {
    if i < |s| && IsNameChar(s[i]) then NameEnd(s, i + 1) else i
  }

  /** The first '>' from i on, or the end of the string. */
  function CloseBracket(s: string, i: nat): (e: nat)
    requires i <= |s|
    ensures i <= e <= |s| && (forall k | i <= k < e :: s[k] != '>') && (e < |s| ==> s[e] == '>')
    decreases |s| - i
  {
    if i < |s| && s[i] != '>' then CloseBracket(s, i + 1) else i
  }

  function NameStart(s: string, i: nat): (j: nat)
    requires i < |s|
    ensures i < j
  {
    if i + 1 < |s| && s[i + 1] == '/' then i + 2 else i + 1
  }

  /** A tag begins at i: an optional slash, a name, and a later closing bracket. */
  predicate TagAt(s: string, i: nat) {
    i < |s| && s[i] == '<' && NameStart(s, i) < |s| && IsLetter(s[NameStart(s, i)])
    && CloseBracket(s, NameStart(s, i)) < |s|
  }

  function TagEnd(s: string, i: nat): (e: nat)
    requires TagAt(s, i)
    ensures i < e <= |s|
  {
    CloseBracket(s, NameStart(s, i)) + 1
  }

  /** The regular expression's groups for the tag at i. */
  function TagOf(s: string, i: nat): Tag
    requires TagAt(s, i)
  {
    var j := NameStart(s, i);
    var e := NameEnd(s, j);
    NameBeforeBracket(s, j);
    Tag(s[i + 1] == '/', Text.Lower(s[j..e]), s[e..TagEnd(s, i) - 1])
  }

  lemma NameBeforeBracket(s: string, j: nat)
    requires j <= |s| && CloseBracket(s, j) < |s|
    ensures NameEnd(s, j) <= CloseBracket(s, j)
  {
  }

  predicate AsciiLetter(c: char) { 65 <= c as int <= 90 || 97 <= c as int <= 122 }

  /** '<', perhaps a slash, a letter, and a '>' somewhere after it. */
  ghost predicate BeginsTag(s: string, i: nat) {
    exists j: nat, k: nat {:trigger s[j], s[k]} | j < k < |s| ::
      i < |s| && s[i] == '<' && (j == i + 1 || (j == i + 2 && s[i + 1] == '/')) && AsciiLetter(s[j]) && s[k] == '>'
  }

  lemma TagBegins(s: string, i: nat)
    ensures TagAt(s, i) <==> BeginsTag(s, i)
  {
    if TagAt(s, i) {
      var j := NameStart(s, i);
      assert s[CloseBracket(s, j)] == '>' && s[j] != '>';
    }
    if BeginsTag(s, i) {
      var j: nat, k: nat :| j < k < |s| && i < |s| && s[i] == '<' && (j == i + 1 || (j == i + 2 && s[i + 1] == '/'))
                            && AsciiLetter(s[j]) && s[k] == '>';
      assert j == NameStart(s, i);
      assert CloseBracket(s, j) <= k;
    }
  }

  predicate AsciiNameChar(c: char) { AsciiLetter(c) || 48 <= c as int <= 57 || c as int == 45 }

  /** The slice of a tag is '<', a slash exactly when it closes, its name in some mix of cases and as
      long as it can be, its attributes, and the first '>' after that. */
  lemma TagIsItsSlice(s: string, i: nat) returns (name: string)
    requires TagAt(s, i)
    ensures var tag := TagOf(s, i);
            && s[i..TagEnd(s, i)] == "<" + (if tag.closing then "/" else "") + name + tag.attrs + ">"
            && Text.Spells(name, tag.name) && |name| > 0 && AsciiLetter(name[0])
            && (forall c | c in name :: AsciiNameChar(c))
            && (tag.attrs != "" ==> !AsciiNameChar(tag.attrs[0])) && '>' !in tag.attrs
  {
    var j := NameStart(s, i);
    var e, b := NameEnd(s, j), CloseBracket(s, j);
    NameBeforeBracket(s, j);
    name := s[j..e];
    TagParts(s, i);
    SlashOrNot(s, i);
    FourParts(s, i, j, e, b);
    SpelledByLower(name);
    NameIsLongest(s, j);
    hide TagAt, TagOf, TagEnd, NameStart, NameEnd, CloseBracket, Text.Spells, Text.Lower, IsNameChar, AsciiNameChar;
    OneChar(s, b);
  }

  lemma TagParts(s: string, i: nat)
    requires TagAt(s, i)
    ensures var j := NameStart(s, i); var e, b := NameEnd(s, j), CloseBracket(s, j);
            && j < |s| && IsLetter(s[j]) && b < |s| && s[b] == '>' && e <= b
            && TagEnd(s, i) == b + 1 && TagOf(s, i) == Tag(s[i + 1] == '/', Text.Lower(s[j..e]), s[e..b])
  {
    NameBeforeBracket(s, NameStart(s, i));
  }

  lemma OneChar(s: string, b: nat)
    requires b < |s|
    ensures s[b..b + 1] == [s[b]]
  {
  }

  lemma SlashOrNot(s: string, i: nat)
    requires TagAt(s, i)
    ensures s[i..NameStart(s, i)] == "<" + if s[i + 1] == '/' then "/" else ""
  {
  }

  lemma FourParts(s: string, i: nat, j: nat, e: nat, b: nat)
    requires i <= j <= e <= b < |s|
    ensures s[i..b + 1] == s[i..j] + s[j..e] + s[e..b] + s[b..b + 1]
  {
    TwoParts(s, i, j, e);
    TwoParts(s, i, e, b);
    TwoParts(s, i, b, b + 1);
  }

  lemma TwoParts(s: string, i: nat, j: nat, k: nat)
    requires i <= j <= k <= |s|
    ensures s[i..k] == s[i..j] + s[j..k]
  {
  }

  /** The name is all name characters, and the first character after it is none. */
  lemma NameIsLongest(s: string, j: nat)
    requires j < |s| && IsLetter(s[j]) && CloseBracket(s, j) < |s|
    ensures var e, b := NameEnd(s, j), CloseBracket(s, j);
            && j < e <= b && AsciiLetter(s[j..e][0]) && (forall c | c in s[j..e] :: AsciiNameChar(c))
            && (s[e..b] != "" ==> !AsciiNameChar(s[e..b][0])) && '>' !in s[e..b]
  {
    NameBeforeBracket(s, j);
    var e, b := NameEnd(s, j), CloseBracket(s, j);
    AsciiNames(s[j]);
    LetterIsInName(s[j]);
    assert e > j;
    assert s[j..e][0] == s[j];
    forall c | c in s[j..e] ensures AsciiNameChar(c) {
      AsciiNames(c);
    }
    if e < b {
      AsciiNames(s[e]);
      assert s[e..b][0] == s[e];
    }
  }

  lemma AsciiNames(c: char)
    ensures IsLetter(c) <==> AsciiLetter(c)
    ensures IsNameChar(c) <==> AsciiNameChar(c)
  {
  }

  lemma LetterIsInName(c: char)
    requires IsLetter(c)
    ensures IsNameChar(c)
  {
  }

  lemma SpelledByLower(name: string)
    ensures Text.Spells(name, Text.Lower(name))
  {
  }

  /** Where the scanner finds the next tag, or the end of the string. */
  function NextTag(s: string, pos: nat): (i: nat)
    requires pos <= |s|
    ensures pos <= i <= |s| && (i < |s| ==> TagAt(s, i)) && forall k | pos <= k < i :: !TagAt(s, k)
    decreases |s| - pos
  {
    if pos < |s| && !TagAt(s, pos) then NextTag(s, pos + 1) else pos
  }

  function TextTokens(text: string): seq<Token> { if text == "" then [] else [TextToken(text)] }

  /** The tokens of s from pos on. */
  function Tokens(s: string, pos: nat): seq<Token>
    requires pos <= |s|
    decreases |s| - pos
  {
    var i := NextTag(s, pos);
    if i == |s| then TextTokens(s[pos..])
    else TextTokens(s[pos..i]) + [TagToken(TagOf(s, i), s[i..TagEnd(s, i)])] + Tokens(s, TagEnd(s, i))
  }

  function Slice(t: Token): string { if t.TextToken? then t.text else t.slice }

  function Slices(ts: seq<Token>): string {
    if |ts| == 0 then "" else Slices(ts[..|ts| - 1]) + Slice(ts[|ts| - 1])
  }

  lemma {:induction false} SlicesConcat(a: seq<Token>, b: seq<Token>)
    ensures Slices(a + b) == Slices(a) + Slices(b)
  {
    if |b| == 0 {
      assert a + b == a;
    } else {
      var b', last := b[..|b| - 1], b[|b| - 1];
      SlicesConcat(a, b');
      assert (a + b)[..|a + b| - 1] == a + b';
      Regroup(Slices(a), Slices(b'), Slice(last));
    }
  }

  lemma Regroup(a: string, b: string, c: string)
    ensures a + b + c == a + (b + c)
  {
  }

  lemma SlicesOfOne(t: Token)
    ensures Slices([t]) == Slice(t)
  {
  }

  lemma SlicesOfText(text: string)
    ensures Slices(TextTokens(text)) == text
  {
  }

  /** Text and tag slices put back together are the scanned string. */
  lemma {:induction false} TokensCover(s: string, pos: nat)
    requires pos <= |s|
    ensures Slices(Tokens(s, pos)) == s[pos..]
    decreases |s| - pos
  {
    hide TagAt, TagOf, Slices, TextTokens;
    var i := NextTag(s, pos);
    SlicesOfText(s[pos..i]);
    if i == |s| {
      assert s[pos..i] == s[pos..];
    } else {
      var e := TagEnd(s, i);
      TokensCover(s, e);
      var tag := [TagToken(TagOf(s, i), s[i..e])];
      SlicesOfOne(tag[0]);
      SlicesConcat(TextTokens(s[pos..i]) + tag, Tokens(s, e));
      SlicesConcat(TextTokens(s[pos..i]), tag);
      ThreeParts(s, pos, i, e);
    }
  }

  lemma ThreeParts(s: string, a: nat, b: nat, c: nat)
    requires a <= b <= c <= |s|
    ensures s[a..] == s[a..b] + s[b..c] + s[c..]
  {
  }

  // ----- rendering one tag -----

  const BARE := ["b", "strong", "i", "em", "u", "ins", "s", "strike", "del", "code", "pre", "blockquote", "tg-spoiler"]
  const UNWRAP := ["p", "div", "section", "article", "header", "footer"]
  const BREAK := ["br", "hr"]

  predicate Whitelisted(name: string) { name in BARE || name in ["a", "tg-emoji", "span", "code"] }

  type Attrs = map<string, string>

  function Get(attrs: Attrs, key: string): string { if key in attrs then attrs[key] else "" }

  predicate IsSpace(c: char) {
    c in " \t\n\r" || c in "\U{000B}\U{000C}\U{001C}\U{001D}\U{001E}\U{001F}\U{0085}\U{00A0}\U{1680}"
    || '\U{2000}' <= c <= '\U{200A}' || c in "\U{2028}\U{2029}\U{202F}\U{205F}\U{3000}"
  }

  function StripLeft(s: string): string { if |s| > 0 && IsSpace(s[0]) then StripLeft(s[1..]) else s }

  function StripRight(s: string): string {
    if |s| > 0 && IsSpace(s[|s| - 1]) then StripRight(s[..|s| - 1]) else s
  }

  function Strip(s: string): string { StripRight(StripLeft(s)) }

  function EscapeChar(c: char): string {
    if c == '&' then "&amp;" else if c == '<' then "&lt;" else if c == '>' then "&gt;"
    else if c == '"' then "&quot;" else if c == '\'' then "&#x27;" else [c]
  }

  function Escape(s: string): string {
    if |s| == 0 then "" else EscapeChar(s[0]) + Escape(s[1..])
  }

  /** The end of the first word of s, which begins without whitespace. */
  function WordEnd(s: string): (e: nat)
    ensures e <= |s| && (forall k | 0 <= k < e :: !IsSpace(s[k])) && (e < |s| ==> IsSpace(s[e]))
  {
    if |s| > 0 && !IsSpace(s[0]) then WordEnd(s[1..]) + 1 else 0
  }

  /** str.split: the words between runs of whitespace. */
  function Split(s: string): seq<string>
    decreases |s|
  {
    if |s| == 0 then []
    else if IsSpace(s[0]) then Split(s[1..])
    else [s[..WordEnd(s)]] + Split(s[WordEnd(s)..])
  }

  /** A word is one word. */
  lemma {:induction false} SplitWord(w: string)
    requires w != "" && forall c | c in w :: !IsSpace(c)
    ensures Split(w) == [w]
  {
    hide IsSpace;
    var e := WordEnd(w);
    assert w[0] in w;
    assert e == |w|;
    assert w[..e] == w;
  }

  /** Whitespace separates, wherever it stands; with SplitWord this is all that Split does. */
  lemma {:induction false} SplitAtSpace(a: string, c: char, b: string)
    requires IsSpace(c)
    ensures Split(a + [c] + b) == Split(a) + Split(b)
    decreases |a|
  {
    hide IsSpace, Split, WordEnd;
    var s := a + [c] + b;
    if |a| == 0 {
      SplitSpace(s);
      AroundSpace(a, c, b, 0);
      SplitNothing();
    } else if IsSpace(a[0]) {
      AroundSpace(a, c, b, 1);
      SplitAtSpace(a[1..], c, b);
      SplitSpace(a);
      SplitSpace(s);
    } else {
      var e := WordEnd(a);
      WordEndBefore(a, c, b);
      SplitFirst(a);
      SplitFirst(s);
      AroundSpace(a, c, b, e);
      SplitAtSpace(a[e..], c, b);
      RegroupWords([a[..e]], Split(a[e..]), Split(b));
    }
  }

  lemma AroundSpace(a: string, c: char, b: string, e: nat)
    requires e <= |a|
    ensures var s := a + [c] + b;
            && |s| > |a| && s[e..] == a[e..] + [c] + b && s[..e] == a[..e]
            && (a == "" ==> s[0] == c && s[1..] == b) && (a != "" ==> s[0] == a[0])
  {
  }

  lemma RegroupWords(a: seq<string>, b: seq<string>, c: seq<string>)
    ensures a + (b + c) == a + b + c
  {
  }

  lemma SplitNothing()
    ensures Split("") == []
  {
  }

  lemma SplitSpace(s: string)
    requires |s| > 0 && IsSpace(s[0])
    ensures Split(s) == Split(s[1..])
  {
  }

  lemma SplitFirst(s: string)
    requires |s| > 0 && !IsSpace(s[0])
    ensures 0 < WordEnd(s) <= |s| && Split(s) == [s[..WordEnd(s)]] + Split(s[WordEnd(s)..])
  {
  }

  lemma {:induction false} WordEndBefore(a: string, c: char, b: string)
    requires IsSpace(c)
    ensures WordEnd(a + [c] + b) == WordEnd(a)
  {
    hide IsSpace;
    if |a| > 0 {
      WordEndBefore(a[1..], c, b);
      assert (a + [c] + b)[1..] == a[1..] + [c] + b;
    }
  }

  function Element(name: string, inner: string): string { "<" + name + inner + ">" }

  function Quoted(key: string, value: string): string { " " + key + "=\"" + Escape(value) + "\"" }

  function RenderOpen(name: string, attrs: Attrs): string {
    if name == "a" then
      var href := Strip(Get(attrs, "href"));
      if href == "" then "" else Element(name, Quoted("href", href))
    else if name == "tg-emoji" then
      var id := Strip(Get(attrs, "emoji-id"));
      if id == "" then "" else Element(name, Quoted("emoji-id", id))
    else if name == "span" then
      if "tg-spoiler" in Split(Get(attrs, "class")) then Element(name, " class=\"tg-spoiler\"") else ""
    else if name == "code" then
      var lang := Get(attrs, "class");
      if "language-" <= lang then Element(name, Quoted("class", lang)) else Element(name, "")
    else if name in BARE then Element(name, "")
    else ""
  }

  function RenderClose(name: string, hadOpen: bool): string {
    if hadOpen && Whitelisted(name) then "</" + name + ">" else ""
  }

  /** What a reader of the markup makes of escaped text. */
  function Unescape(s: string): string
    decreases |s|
  {
    if |s| == 0 then ""
    else if "&amp;" <= s then "&" + Unescape(s[5..])
    else if "&lt;" <= s then "<" + Unescape(s[4..])
    else if "&gt;" <= s then ">" + Unescape(s[4..])
    else if "&quot;" <= s then "\"" + Unescape(s[6..])
    else if "&#x27;" <= s then "'" + Unescape(s[6..])
    else [s[0]] + Unescape(s[1..])
  }

  lemma UnescapeFirst(c: char, rest: string)
    ensures Unescape(EscapeChar(c) + rest) == [c] + Unescape(rest)
  {
    var s := EscapeChar(c) + rest;
    if |EscapeChar(c)| == 1 {
      assert s[0] == c && s[1..] == rest;
    } else {
      assert EscapeChar(c) <= s && s[|EscapeChar(c)|..] == rest;
      assert s[1] == EscapeChar(c)[1] && s[2] == EscapeChar(c)[2];
    }
  }

  /** Escaping loses nothing. */
  lemma {:induction false} EscapeRoundTrip(s: string)
    ensures Unescape(Escape(s)) == s
  {
    if |s| > 0 {
      EscapeRoundTrip(s[1..]);
      UnescapeFirst(s[0], Escape(s[1..]));
    }
  }

  predicate BareName(name: string) {
    name in {"b", "strong", "i", "em", "u", "ins", "s", "strike", "del", "pre", "blockquote", "tg-spoiler"}
  }

  /** A tag without attributes of its own is kept as it is. */
  lemma BareIsKept(name: string, attrs: Attrs)
    requires BareName(name)
    ensures RenderOpen(name, attrs) == "<" + name + ">"
  {
    assert "<" + name + "" + ">" == "<" + name + ">";
  }

  /** A link keeps its trimmed target, escaped; one without a target is dropped. */
  lemma LinkIsKept(attrs: Attrs)
    ensures var href := if "href" in attrs then Strip(attrs["href"]) else "";
            RenderOpen("a", attrs) == if href == "" then "" else "<a href=\"" + Escape(href) + "\">"
  {
    EmptyStrips();
    hide Escape, Strip;
    var href := Escape(Strip(Get(attrs, "href")));
    assert "<" + "a" + (" " + "href" + "=\"" + href + "\"") + ">" == "<a href=\"" + href + "\">";
  }

  lemma EmojiIsKept(attrs: Attrs)
    ensures var id := if "emoji-id" in attrs then Strip(attrs["emoji-id"]) else "";
            RenderOpen("tg-emoji", attrs) == if id == "" then "" else "<tg-emoji emoji-id=\"" + Escape(id) + "\">"
  {
    EmptyStrips();
    hide Escape, Strip;
    var id := Escape(Strip(Get(attrs, "emoji-id")));
    assert "<" + "tg-emoji" + (" " + "emoji-id" + "=\"" + id + "\"") + ">" == "<tg-emoji emoji-id=\"" + id + "\">";
  }

  /** A span is kept exactly when one of its classes is the spoiler. */
  lemma SpoilerIsKept(attrs: Attrs)
    ensures RenderOpen("span", attrs)
            == if "class" in attrs && "tg-spoiler" in Split(attrs["class"]) then "<span class=\"tg-spoiler\">" else ""
  {
    SplitNothing();
    hide Split;
    assert "<" + "span" + " class=\"tg-spoiler\"" + ">" == "<span class=\"tg-spoiler\">";
  }

  /** Code keeps the name of a language, and no other class. */
  lemma CodeIsKept(attrs: Attrs)
    ensures RenderOpen("code", attrs)
            == if "class" in attrs && "language-" <= attrs["class"]
               then "<code class=\"" + Escape(attrs["class"]) + "\">" else "<code>"
  {
    hide Escape;
    var lang := Escape(Get(attrs, "class"));
    assert "<" + "code" + "" + ">" == "<code>";
    assert "<" + "code" + (" " + "class" + "=\"" + lang + "\"") + ">" == "<code class=\"" + lang + "\">";
  }

  /** No other tag is kept. */
  lemma OthersAreDropped(name: string, attrs: Attrs)
    requires !BareName(name) && name !in {"a", "tg-emoji", "span", "code"}
    ensures RenderOpen(name, attrs) == ""
  {
  }

  lemma EmptyStrips()
    ensures Strip("") == ""
  {
  }

  /** Closing tags match what was opened. */
  lemma ClosedExactly(name: string, hadOpen: bool)
    ensures RenderClose(name, hadOpen) ==
              if hadOpen && (BareName(name) || name in {"a", "tg-emoji", "span", "code"}) then "</" + name + ">" else ""
  {
  }

  /** The whitespace among the ASCII characters, by code point. */
  lemma AsciiWhitespace(c: char)
    requires c as int < 128
    ensures IsSpace(c) <==> 9 <= c as int <= 13 || 28 <= c as int <= 32
  {
  }

  predicate NoBrackets(s: string) { '<' !in s && '>' !in s }

  lemma EscapedChar(c: char)
    ensures NoBrackets(EscapeChar(c)) && '"' !in EscapeChar(c) && '\'' !in EscapeChar(c)
  {
  }

  lemma {:induction false} EscapedHasNoBrackets(s: string)
    ensures NoBrackets(Escape(s)) && '"' !in Escape(s) && '\'' !in Escape(s)
  {
    hide EscapeChar;
    if |s| > 0 {
      EscapedHasNoBrackets(s[1..]);
      EscapedChar(s[0]);
    }
  }

  /** r is one opening tag of the given name: nothing inside it opens or closes another. */
  ghost predicate OneTag(r: string, name: string) {
    exists inner :: r == Element(name, inner) && NoBrackets(inner)
  }

  lemma QuotedHasNoBrackets(key: string, value: string)
    requires NoBrackets(key)
    ensures NoBrackets(Quoted(key, value))
  {
    EscapedHasNoBrackets(value);
  }

  lemma WhitelistHasNoBrackets(name: string)
    requires Whitelisted(name)
    ensures NoBrackets(name)
  {
  }

  lemma LiteralsHaveNoBrackets()
    ensures NoBrackets("") && NoBrackets(" class=\"tg-spoiler\"")
    ensures NoBrackets("href") && NoBrackets("emoji-id") && NoBrackets("class")
  {
  }

  /** Whatever the attributes, an opening tag is dropped or rendered as one tag of a whitelisted name. */
  lemma RenderedIsOneTag(name: string, attrs: Attrs)
    ensures var r := RenderOpen(name, attrs);
            r != "" ==> Whitelisted(name) && NoBrackets(name) && OneTag(r, name)
  {
    hide Escape, Strip, Split, IsSpace, Element, Quoted, NoBrackets;
    LiteralsHaveNoBrackets();
    QuotedHasNoBrackets("href", Strip(Get(attrs, "href")));
    QuotedHasNoBrackets("emoji-id", Strip(Get(attrs, "emoji-id")));
    QuotedHasNoBrackets("class", Get(attrs, "class"));
    if Whitelisted(name) {
      WhitelistHasNoBrackets(name);
    }
  }
}
