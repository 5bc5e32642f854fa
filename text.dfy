/** String editing shared by the text fields of the title screen and the code window. */
module Text {

  /** `s[:-1]`: the string without its last character; the empty string stays empty. */
  function DropLast(s: string): (r: string)
    ensures |r| == if s == [] then 0 else |s| - 1
    ensures r <= s
  {
    if s == [] then [] else s[..|s| - 1]
  }

  /** Backspace undoes typing. */
  lemma DropLastUndoesAppend(s: string, t: string)
    requires |t| == 1
    ensures DropLast(s + t) == s
  {
    assert (s + t)[..|s + t| - 1] == s;
  }

  /** An ASCII letter or digit. */
  predicate IsAlnumChar(c: char)
  {
    'a' <= c <= 'z' || 'A' <= c <= 'Z' || '0' <= c <= '9'
  }

  /** `str.isalnum()`: a non-empty string of letters and digits. */
  predicate IsAlnum(s: string)
  {
    s != [] && forall i :: 0 <= i < |s| ==> IsAlnumChar(s[i])
  }

  /** Every character of `s` is a letter or digit (the empty string included). */
  predicate AllAlnum(s: string)
  {
    forall i :: 0 <= i < |s| ==> IsAlnumChar(s[i])
  }
}
