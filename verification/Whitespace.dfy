/** The converter's last pass: runs of three or more newlines become two, and the
    ends are trimmed. */
module Whitespace {
  import opened TelegramHtml

  /** Number of newlines that end s. */
  function Run(s: string): nat {
    if |s| > 0 && s[|s| - 1] == '\n' then Run(s[..|s| - 1]) + 1 else 0
  }

  /** re.sub(r"\n{3,}", "\n\n", s): of each run of newlines at most two stay. */
  function Collapse(s: string): string {
    if |s| == 0 then ""
    else
      var before := Collapse(s[..|s| - 1]);
      if s[|s| - 1] == '\n' && Run(s) > 2 then before else before + [s[|s| - 1]]
  }

  function FinalPass(s: string): string { Strip(Collapse(s)) }

  /** Three newlines in a row begin at i. */
  predicate TripleAt(s: string, i: nat) {
    i + 2 < |s| && s[i] == '\n' && s[i + 1] == '\n' && s[i + 2] == '\n'
  }

  ghost predicate NoTripleNewline(s: string) { forall i: nat :: !TripleAt(s, i) }

  /** r is s with some of its whitespace left out. */
  predicate Thinned(r: string, s: string) {
    if |s| == 0 then r == ""
    else
      var last := s[|s| - 1];
      || (|r| > 0 && r[|r| - 1] == last && Thinned(r[..|r| - 1], s[..|s| - 1]))
      || (IsSpace(last) && Thinned(r, s[..|s| - 1]))
  }

  predicate SliceAt(r: string, s: string, k: nat) { k + |r| <= |s| && r == s[k..k + |r|] }

  /** The characters of s that are not whitespace, in order. */
  function Ink(s: string): string {
    if |s| == 0 then "" else Ink(s[..|s| - 1]) + if IsSpace(s[|s| - 1]) then "" else [s[|s| - 1]]
  }

  function Min(a: nat, b: nat): nat { if a < b then a else b }

  /** A run of newlines keeps at most two; no run of three is left. */
  lemma {:induction false} CollapseRuns(s: string)
    ensures Run(Collapse(s)) == Min(Run(s), 2) && NoTripleNewline(Collapse(s))
  {
    if |s| > 0 {
      var c := Collapse(s[..|s| - 1]);
      CollapseRuns(s[..|s| - 1]);
      if s[|s| - 1] != '\n' || Run(s) <= 2 {
        var last := s[|s| - 1];
        assert (c + [last])[..|c|] == c;
        AppendKeepsNoTriple(c, last);
      }
    }
  }

  /** Appending a newline makes no run of three unless two newlines are there already. */
  lemma AppendKeepsNoTriple(s: string, c: char)
    requires NoTripleNewline(s) && (c == '\n' ==> Run(s) < 2)
    ensures NoTripleNewline(s + [c])
  {
    forall i: nat ensures !TripleAt(s + [c], i) {
      assert !TripleAt(s, i);
      ShortEnd(s);
    }
  }

  lemma ShortEnd(s: string)
    ensures Run(s) < 2 ==> !(|s| >= 2 && s[|s| - 1] == '\n' && s[|s| - 2] == '\n')
  {
    if |s| >= 2 && s[|s| - 1] == '\n' && s[|s| - 2] == '\n' {
      assert Run(s[..|s| - 1]) > 0;
    }
  }

  /** Text around any other character is collapsed on its own. */
  lemma {:induction false} CollapseSplits(a: string, c: char, b: string)
    requires c != '\n'
    ensures Collapse(a + [c] + b) == Collapse(a) + [c] + Collapse(b)
    ensures Run(a + [c] + b) == Run(b)
  {
    var s := a + [c] + b;
    if b == "" {
      assert s[..|s| - 1] == a;
    } else {
      CollapseSplits(a, c, b[..|b| - 1]);
      assert s[..|s| - 1] == a + [c] + b[..|b| - 1];
    }
  }

  /** A run of n newlines becomes one of min(n, 2); with CollapseSplits this is all Collapse does. */
  lemma {:induction false} CollapseNewlines(n: nat)
    ensures Collapse(seq(n, i => '\n')) == seq(Min(n, 2), i => '\n') && Run(seq(n, i => '\n')) == n
  {
    if n > 0 {
      CollapseNewlines(n - 1);
      assert seq(n, i => '\n')[..n - 1] == seq(n - 1, i => '\n');
    }
  }

  // ----- whitespace is all that is left out -----

  lemma {:induction false} ThinnedSelf(s: string)
    ensures Thinned(s, s)
  {
    if |s| > 0 {
      ThinnedSelf(s[..|s| - 1]);
    }
  }

  lemma {:induction false} ThinnedTwice(q: string, r: string, s: string)
    requires Thinned(q, r) && Thinned(r, s)
    ensures Thinned(q, s)
  {
    hide IsSpace;
    if |s| > 0 {
      var s' := s[..|s| - 1];
      if IsSpace(s[|s| - 1]) && Thinned(r, s') {
        ThinnedTwice(q, r, s');
      } else if |q| > 0 && q[|q| - 1] == r[|r| - 1] && Thinned(q[..|q| - 1], r[..|r| - 1]) {
        ThinnedTwice(q[..|q| - 1], r[..|r| - 1], s');
      } else {
        ThinnedTwice(q, r[..|r| - 1], s');
      }
    }
  }

  /** So the other characters are the same, in the same order. */
  lemma {:induction false} ThinnedKeepsInk(r: string, s: string)
    requires Thinned(r, s)
    ensures Ink(r) == Ink(s)
  {
    hide IsSpace;
    if |s| > 0 {
      if IsSpace(s[|s| - 1]) && Thinned(r, s[..|s| - 1]) {
        ThinnedKeepsInk(r, s[..|s| - 1]);
      } else {
        ThinnedKeepsInk(r[..|r| - 1], s[..|s| - 1]);
      }
    }
  }

  lemma {:induction false} CollapseThins(s: string)
    ensures Thinned(Collapse(s), s)
  {
    if |s| > 0 {
      var c := Collapse(s[..|s| - 1]);
      CollapseThins(s[..|s| - 1]);
      assert (c + [s[|s| - 1]])[..|c|] == c;
    }
  }

  lemma {:induction false} ThinnedFirst(s: string)
    requires |s| > 0 && IsSpace(s[0])
    ensures Thinned(s[1..], s)
  {
    hide IsSpace;
    if |s| > 1 {
      ThinnedFirst(s[..|s| - 1]);
      assert s[..|s| - 1][1..] == s[1..][..|s| - 2];
    } else {
      assert Thinned(s[1..], s[..0]);
    }
  }

  /** A text without a run of three newlines is left alone. */
  lemma {:induction false} CollapseFixed(s: string)
    requires NoTripleNewline(s)
    ensures Collapse(s) == s
  {
    hide NoTripleNewline;
    if |s| > 0 {
      var n := |s| - 1;
      NoTripleInSlice(s, 0, n);
      assert s[0..n] == s[..n];
      CollapseFixed(s[..n]);
      ShortRun(s);
      assert s == s[..n] + [s[n]];
    }
  }

  lemma LongRun(s: string)
    requires Run(s) > 2
    ensures |s| >= 3 && TripleAt(s, |s| - 3)
  {
    assert Run(s[..|s| - 1]) > 1;
    assert Run(s[..|s| - 1][..|s| - 2]) > 0;
  }

  lemma ShortRun(s: string)
    requires NoTripleNewline(s)
    ensures Run(s) <= 2
  {
    if Run(s) > 2 {
      LongRun(s);
    }
  }

  /** Strip takes a slice whose ends are not whitespace, and only whitespace around it. */
  lemma {:induction false} StripLeftIsSuffix(s: string) returns (k: nat)
    ensures k <= |s| && StripLeft(s) == s[k..] && Thinned(s[k..], s)
    ensures StripLeft(s) != "" ==> !IsSpace(StripLeft(s)[0])
  {
    hide IsSpace, Thinned;
    if |s| > 0 && IsSpace(s[0]) {
      var j := StripLeftIsSuffix(s[1..]);
      k := j + 1;
      assert s[1..][j..] == s[k..];
      ThinnedFirst(s);
      ThinnedTwice(s[k..], s[1..], s);
    } else {
      k := 0;
      assert s == s[0..];
      ThinnedSelf(s);
    }
  }

  lemma {:induction false} StripRightIsPrefix(s: string)
    ensures StripRight(s) <= s && Thinned(StripRight(s), s)
    ensures StripRight(s) != "" ==> !IsSpace(StripRight(s)[|StripRight(s)| - 1])
  {
    hide IsSpace;
    if |s| > 0 && IsSpace(s[|s| - 1]) {
      StripRightIsPrefix(s[..|s| - 1]);
    } else {
      ThinnedSelf(s);
    }
  }

  lemma StripFixed(s: string)
    requires s != "" ==> !IsSpace(s[0]) && !IsSpace(s[|s| - 1])
    ensures Strip(s) == s
  {
    hide IsSpace;
  }

  lemma NoTripleInSlice(s: string, i: nat, j: nat)
    requires NoTripleNewline(s) && i <= j <= |s|
    ensures NoTripleNewline(s[i..j])
  {
    forall k: nat ensures !TripleAt(s[i..j], k) {
      assert !TripleAt(s, i + k);
    }
  }

  /** Strip takes a slice with clean ends and leaves out only whitespace. */
  lemma StripIsSlice(s: string) returns (k: nat)
    ensures Thinned(Strip(s), s)
    ensures k + |Strip(s)| <= |s| && Strip(s) == s[k..k + |Strip(s)|]
    ensures Strip(s) != "" ==> !IsSpace(Strip(s)[0]) && !IsSpace(Strip(s)[|Strip(s)| - 1])
  {
    hide IsSpace, Thinned;
    var l := StripLeft(s);
    var r := StripRight(l);
    k := StripLeftIsSuffix(s);
    StripRightIsPrefix(l);
    ThinnedTwice(r, l, s);
    assert r == s[k..k + |r|];
  }

  /** The final pass leaves no run of three newlines and no whitespace at the ends; it is the
      input with nothing but whitespace left out, and running it again changes nothing. */
  lemma FinalPassIsClean(s: string)
    ensures var r := FinalPass(s);
            && NoTripleNewline(r)
            && (r != "" ==> !IsSpace(r[0]) && !IsSpace(r[|r| - 1]))
            && Thinned(r, s) && Ink(r) == Ink(s)
            && FinalPass(r) == r
    ensures exists k: nat :: SliceAt(FinalPass(s), Collapse(s), k)
  {
    hide IsSpace, Ink, Thinned, NoTripleNewline, Collapse, Strip;
    var c := Collapse(s);
    var r := Strip(c);
    CollapseRuns(s);
    CollapseThins(s);
    var k := StripIsSlice(c);
    ThinnedTwice(r, c, s);
    ThinnedKeepsInk(r, s);
    assert SliceAt(r, c, k);
    NoTripleInSlice(c, k, k + |r|);
    CollapseFixed(r);
    StripFixed(r);
  }
}
