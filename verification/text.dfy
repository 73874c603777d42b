/** The JavaScript string operations the pages use: `toLowerCase`
    (on ASCII letters), `includes`, and the test `trim() === ""`. */
module Text {

  function LowerChar(c: char): char {
    if 'A' <= c <= 'Z' then (c as int + 32) as char else c
  }

  /** `toLowerCase`, restricted to the ASCII letters A-Z. */
  function Lower(s: string): (r: string)
    ensures |r| == |s|
    ensures forall i :: 0 <= i < |s| ==> r[i] == LowerChar(s[i])
  {
    if s == [] then [] else [LowerChar(s[0])] + Lower(s[1..])
  }

  /** `s.includes(sub)`: `sub` occurs in `s` at some position. */
  predicate Contains(s: string, sub: string) {
    sub <= s || (|s| > 0 && Contains(s[1..], sub))
  }

  /** `sub` found at position `i` of `s` is contained in `s`. */
  lemma {:induction false} ContainsAt(s: string, sub: string, i: nat)
    requires i <= |s| && sub <= s[i..]
    ensures Contains(s, sub)
  {
    if i > 0 {
      assert s[1..][i - 1..] == s[i..];
      ContainsAt(s[1..], sub, i - 1);
    }
  }

  /** A string in which the first character of `sub` occurs only too
      close to the end for `sub` to fit does not contain `sub`. */
  lemma {:induction false} NotContainsWithoutFirst(s: string, sub: string)
    requires sub != []
    requires forall i :: 0 <= i < |s| && i + |sub| <= |s| ==> s[i] != sub[0]
    ensures !Contains(s, sub)
  {
    if s != [] {
      forall i | 0 <= i < |s[1..]| && i + |sub| <= |s[1..]| ensures s[1..][i] != sub[0] {
        assert s[1..][i] == s[i + 1];
      }
      NotContainsWithoutFirst(s[1..], sub);
    }
  }

  /** The characters `String.prototype.trim` removes: the ECMAScript
      WhiteSpace (tab, vertical tab, form feed, space, no-break space,
      byte order mark and the Unicode space separators) and LineTerminator
      (line feed, carriage return, line and paragraph separators) code
      points. */
  predicate IsWhitespace(c: char) {
    || c == '\t' || c == '\n' || c == '\U{000B}' || c == '\U{000C}' || c == '\r'
    || c == ' ' || c == '\U{00A0}' || c == '\U{1680}' || '\U{2000}' <= c <= '\U{200A}'
    || c == '\U{2028}' || c == '\U{2029}' || c == '\U{202F}' || c == '\U{205F}'
    || c == '\U{3000}' || c == '\U{FEFF}'
  }

  /** `s.trim() === ""`. */
  predicate IsBlank(s: string) {
    forall i :: 0 <= i < |s| ==> IsWhitespace(s[i])
  }
}
