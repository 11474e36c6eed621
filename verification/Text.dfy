/** The few string operations of the source that its decisions depend on. */
module Text {

  function LowerChar(c: char): char {
    if 'A' <= c <= 'Z' then c - 'A' + 'a' else c
  }

  /** Case folding of ASCII letters; other characters stay as they are. */
  function Lower(s: string): (r: string)
    ensures |r| == |s|
  {
    seq(|s|, i requires 0 <= i < |s| => LowerChar(s[i]))
  }

  /** s is the word, each letter in either case (code points 65 to 90 against 97 to 122). */
  predicate Spells(s: string, word: string) {
    |s| == |word| && forall i | 0 <= i < |s| ::
      s[i] == word[i] || (65 <= s[i] as int <= 90 && s[i] as int + 32 == word[i] as int)
  }

  predicate IsLowerCase(word: string) { forall c | c in word :: !('A' <= c <= 'Z') }

  /** The folded text is a lower-case word exactly when the text spells it. */
  lemma LowerSpells(s: string, word: string)
    requires IsLowerCase(word)
    ensures Lower(s) == word <==> Spells(s, word)
  {
    if Lower(s) == word {
      forall i | 0 <= i < |s|
        ensures s[i] == word[i] || (65 <= s[i] as int <= 90 && s[i] as int + 32 == word[i] as int)
      {
        assert Lower(s)[i] == word[i];
      }
    }
    if Spells(s, word) {
      forall i | 0 <= i < |s| ensures Lower(s)[i] == word[i] {
        assert word[i] in word;
      }
    }
  }
}
