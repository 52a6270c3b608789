/** The string operations of Go's strings package that the modelled code relies on. */
module Text {
  /** unicode.IsSpace: the Latin-1 spaces and the separators of category Z. */
  predicate IsSpace(c: char) {
    c == '\t' || c == '\n' || c == '\U{0B}' || c == '\U{0C}' || c == '\r' || c == ' '
    || c == '\U{85}' || c == '\U{A0}' || c == '\U{1680}' || '\U{2000}' <= c <= '\U{200A}'
    || c == '\U{2028}' || c == '\U{2029}' || c == '\U{202F}' || c == '\U{205F}' || c == '\U{3000}'
  }

  /** The first position from i on that holds no white space. */
  function SpacesEnd(s: string, i: nat): (n: nat)
    requires i <= |s|
    ensures i <= n <= |s|
    decreases |s| - i
  {
    if i < |s| && IsSpace(s[i]) then SpacesEnd(s, i + 1) else i
  }

  /** The last position up to i that has no white space before it. */
  function SpacesStart(s: string, i: nat): (n: nat)
    requires i <= |s|
    ensures n <= i
  {
    if i > 0 && IsSpace(s[i - 1]) then SpacesStart(s, i - 1) else i
  }

  function TrimLeft(s: string): string {
    s[SpacesEnd(s, 0)..]
  }

  function TrimRight(s: string): string {
    s[..SpacesStart(s, |s|)]
  }

  /** strings.TrimSpace */
  function TrimSpace(s: string): string {
    TrimRight(TrimLeft(s))
  }

  /** No white space at either end. */
  predicate Trimmed(s: string) {
    s != [] ==> !IsSpace(s[0]) && !IsSpace(s[|s| - 1])
  }

  predicate AllSpace(s: string) {
    forall i :: 0 <= i < |s| ==> IsSpace(s[i])
  }

  lemma {:induction false} SpacesEndIsSharp(s: string, i: nat)
    requires i <= |s|
    ensures var n := SpacesEnd(s, i);
            && (n < |s| ==> !IsSpace(s[n]))
            && forall j :: i <= j < n ==> IsSpace(s[j])
    decreases |s| - i
  {
    if i < |s| && IsSpace(s[i]) {
      SpacesEndIsSharp(s, i + 1);
    }
  }

  lemma {:induction false} SpacesStartIsSharp(s: string, i: nat)
    requires i <= |s|
    ensures var n := SpacesStart(s, i);
            && (n > 0 ==> !IsSpace(s[n - 1]))
            && forall j :: n <= j < i ==> IsSpace(s[j])
  {
    if i > 0 && IsSpace(s[i - 1]) {
      SpacesStartIsSharp(s, i - 1);
    }
  }

  /** Trimming cuts white space off both ends and leaves none there. */
  lemma TrimParts(s: string) returns (before: string, after: string)
    ensures s == before + TrimSpace(s) + after && AllSpace(before) && AllSpace(after)
    ensures Trimmed(TrimSpace(s))
  {
    hide IsSpace, SpacesEnd, SpacesStart;
    var left := TrimLeft(s);
    SpacesEndIsSharp(s, 0);
    SpacesStartIsSharp(left, |left|);
    before, after := s[..SpacesEnd(s, 0)], left[SpacesStart(left, |left|)..];
  }

  lemma TrimIsTrimmed(s: string)
    ensures Trimmed(TrimSpace(s)) && TrimSpace(TrimSpace(s)) == TrimSpace(s)
  {
    hide IsSpace, TrimSpace;
    var _, _ := TrimParts(s);
    TrimOfTrimmed(TrimSpace(s));
  }

  lemma TrimOfTrimmed(s: string)
    requires Trimmed(s)
    ensures TrimSpace(s) == s
  {
    hide IsSpace;
  }

  function ToLower(s: string): (t: string)
    ensures |t| == |s|
  {
    seq(|s|, i requires 0 <= i < |s| => if 'A' <= s[i] <= 'Z' then s[i] - 'A' + 'a' else s[i])
  }

  /** The same letter, perhaps one of them a capital. */
  predicate SameLetter(a: char, b: char) {
    || a == b
    || ('A' <= a <= 'Z' && b as int == a as int + 32)
    || ('A' <= b <= 'Z' && a as int == b as int + 32)
  }

  /** The same word, whatever its capitals. */
  predicate SameWord(s: string, t: string) {
    |s| == |t| && forall i :: 0 <= i < |s| ==> SameLetter(s[i], t[i])
  }

  lemma LowerFolds(s: string, t: string)
    ensures ToLower(s) == ToLower(t) <==> SameWord(s, t)
  {
    if ToLower(s) == ToLower(t) {
      assert |s| == |ToLower(s)| == |t|;
      forall i | 0 <= i < |s| ensures SameLetter(s[i], t[i]) {
        assert ToLower(s)[i] == ToLower(t)[i];
      }
    }
  }
}
