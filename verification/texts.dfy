/** Stripping of text. */
module Texts {
  /** The ASCII characters Python's strip and \s take for white space. */
  predicate IsBlank(c: char) {
    c == ' ' || '\t' <= c <= '\r' || 28 as char <= c <= 31 as char
  }

  /** The first position from `i` on that is not blank. */
  function SkipBlanks(s: string, i: nat): (n: nat)
    requires i <= |s|
    ensures i <= n <= |s|
    ensures n < |s| ==> !IsBlank(s[n])
    ensures forall k :: i <= k < n ==> IsBlank(s[k])
    decreases |s| - i
  {
    if i < |s| && IsBlank(s[i]) then SkipBlanks(s, i + 1) else i
  }

  /** The last position up to `i` that has no blank before it. */
  function BackOverBlanks(s: string, i: nat): (n: nat)
    requires i <= |s|
    ensures n <= i
    ensures n > 0 ==> !IsBlank(s[n - 1])
    ensures forall k :: n <= k < i ==> IsBlank(s[k])
  {
    if i > 0 && IsBlank(s[i - 1]) then BackOverBlanks(s, i - 1) else i
  }

  function StripLeft(s: string): string {
    s[SkipBlanks(s, 0)..]
  }

  function StripRight(s: string): string {
    s[..BackOverBlanks(s, |s|)]
  }

  function Strip(s: string): string {
    StripRight(StripLeft(s))
  }

  lemma StripLeftKeeps(s: string)
    requires s != "" ==> !IsBlank(s[0])
    ensures StripLeft(s) == s
  {
  }

  /** Text that neither begins nor ends with white space is left alone. */
  lemma StripKeeps(s: string)
    requires s != "" ==> !IsBlank(s[0]) && !IsBlank(s[|s| - 1])
    ensures Strip(s) == s
  {
  }

  /** The white space, by name: space, tab, line feed, vertical tab, form feed, carriage return and the four
      separators. */
  lemma BlankCharacters(c: char)
    ensures IsBlank(c) <==>
            c in {' ', '\t', '\n', 11 as char, 12 as char, '\r', 28 as char, 29 as char, 30 as char, 31 as char}
  {
  }

  predicate AllBlank(s: string) {
    forall i :: 0 <= i < |s| ==> IsBlank(s[i])
  }

  lemma StripLeftDrops(a: string, t: string)
    requires AllBlank(a) && (t != "" ==> !IsBlank(t[0]))
    ensures StripLeft(a + t) == t
  {
    var s := a + t;
    assert forall i :: 0 <= i < |a| ==> s[i] == a[i];
    assert t != "" ==> s[|a|] == t[0];
    assert SkipBlanks(s, 0) == |a|;
  }

  lemma StripRightDrops(t: string, b: string)
    requires AllBlank(b) && (t != "" ==> !IsBlank(t[|t| - 1]))
    ensures StripRight(t + b) == t
  {
    var s := t + b;
    assert forall i :: |t| <= i < |s| ==> s[i] == b[i - |t|];
    assert t != "" ==> s[|t| - 1] == t[|t| - 1];
    assert BackOverBlanks(s, |s|) == |t|;
  }

  /** Strip takes away exactly the white space around a text. */
  lemma StripIsTheMiddle(a: string, t: string, b: string)
    requires AllBlank(a) && AllBlank(b) && (t != "" ==> !IsBlank(t[0]) && !IsBlank(t[|t| - 1]))
    ensures Strip(a + t + b) == t
  {
    if t == "" {
      assert a + t + b == (a + b) + "";
      StripLeftDrops(a + b, "");
      assert StripRight("") == "";
    } else {
      assert a + t + b == a + (t + b);
      StripLeftDrops(a, t + b);
      StripRightDrops(t, b);
    }
  }
}
