/** ASCII case and substring search, as the standard library has them. */
module Text {

  function LowerChar(c: char): char {
    if 'A' <= c <= 'Z' then c - 'A' + 'a' else c
  }

  function UpperChar(c: char): char {
    if 'a' <= c <= 'z' then c - 'a' + 'A' else c
  }

  function Lower(s: string): (r: string)
    ensures |r| == |s|
    ensures forall i :: 0 <= i < |s| ==> r[i] == LowerChar(s[i])
    ensures forall i :: 0 <= i < |s| ==> r[i] as int == s[i] as int + if 'A' <= s[i] <= 'Z' then 32 else 0
  {
    seq(|s|, i requires 0 <= i < |s| => LowerChar(s[i]))
  }

  function Upper(s: string): (r: string)
    ensures |r| == |s|
    ensures forall i :: 0 <= i < |s| ==> r[i] == UpperChar(s[i])
    ensures forall i :: 0 <= i < |s| ==> r[i] as int == s[i] as int - if 'a' <= s[i] <= 'z' then 32 else 0
  {
    seq(|s|, i requires 0 <= i < |s| => UpperChar(s[i]))
  }

  predicate HasAt(s: string, k: string, i: nat) {
    i + |k| <= |s| && s[i..i + |k|] == k
  }

  predicate HasSub(s: string, k: string) {
    exists i | 0 <= i <= |s| :: HasAt(s, k, i)
  }

  /** A longer text keeps every substring of the one it extends. */
  lemma ExtensionKeepsSubstrings(before: string, s: string, after: string, k: string)
    requires HasSub(s, k)
    ensures HasSub(before + s + after, k)
  {
    var i :| 0 <= i <= |s| && HasAt(s, k, i);
    var whole := before + s + after;
    assert whole[|before| + i..|before| + i + |k|] == s[i..i + |k|];
    assert HasAt(whole, k, |before| + i);
  }

  /** One letter in either case, or one character. */
  predicate SameLetter(c: char, d: char) {
    || c == d
    || ('A' <= c <= 'Z' && d as int == c as int + 32)
    || ('A' <= d <= 'Z' && c as int == d as int + 32)
  }

  /** Two ASCII spellings of one word. */
  predicate SameWord(a: string, b: string) {
    |a| == |b| && forall i :: 0 <= i < |a| ==> SameLetter(a[i], b[i])
  }

  predicate NoCapitals(s: string) {
    forall c <- s :: !('A' <= c <= 'Z')
  }

  /** Lowering and comparing with a word in small letters is comparing without regard to case. */
  lemma LowerIsCaseless(text: string, word: string)
    requires NoCapitals(word)
    ensures Lower(text) == word <==> SameWord(text, word)
  {
    assert forall i :: 0 <= i < |word| ==> word[i] in word;
    if SameWord(text, word) {
      assert forall i :: 0 <= i < |text| ==> SameLetter(text[i], word[i]);
      assert forall i :: 0 <= i < |text| ==> Lower(text)[i] == word[i];
    }
  }

  /** The word stands somewhere in the text. */
  lemma HasSubIs(s: string, k: string)
    ensures HasSub(s, k) <==> exists before, after :: s == before + k + after
  {
    if HasSub(s, k) {
      var i :| 0 <= i <= |s| && HasAt(s, k, i);
      assert s == s[..i] + k + s[i + |k|..];
    }
    if before, after :| s == before + k + after {
      assert HasAt(s, k, |before|);
    }
  }
}
