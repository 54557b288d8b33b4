/** The string built-ins the guardrail pipeline relies on: `toLowerCase`,
    `includes` and `Array.prototype.join`, plus the character classes that the
    guardrail regular expressions use (`\s`, `\w`, `\d` and `.`). */
module Text {

  /** Lower-casing of one character. Only ASCII letters are mapped; every
      other character is left as it is. */
  function LowerChar(c: char): char
  {
    if 'A' <= c <= 'Z' then (c as int - 'A' as int + 'a' as int) as char else c
  }

  /** `s.toLowerCase()`, restricted to ASCII letters (see LowerChar). */
  function Lower(s: string): (r: string)
    ensures |r| == |s|
  {
    seq(|s|, i requires 0 <= i < |s| => LowerChar(s[i]))
  }

  /** `b` differs from `a` at most in the case of its letters. */
  predicate SameUpToCase(a: string, b: string)
  {
    |a| == |b| && forall i :: 0 <= i < |a| ==> LowerChar(a[i]) == LowerChar(b[i])
  }

  /** `w` occurs in `s` starting at index `i`. */
  predicate At(s: string, i: int, w: string)
  {
    0 <= i && i + |w| <= |s| && s[i..i + |w|] == w
  }

  /** `s.includes(w)`: `w` occurs somewhere in `s`. */
  predicate Contains(s: string, w: string)
  {
    exists i :: 0 <= i <= |s| && At(s, i, w)
  }

  /** `lines.join(sep)`. */
  function Join(lines: seq<string>, sep: string): string
  {
    if |lines| == 0 then ""
    else if |lines| == 1 then lines[0]
    else lines[0] + sep + Join(lines[1..], sep)
  }

  /** `\s` of an ECMAScript regular expression. */
  predicate IsSpace(c: char)
  {
    c == ' ' || c == '\t' || c == '\n' || c == '\r' || c == '\U{000B}' || c == '\U{000C}'
    || c == '\U{00A0}' || c == '\U{1680}' || '\U{2000}' <= c <= '\U{200A}'
    || c == '\U{2028}' || c == '\U{2029}' || c == '\U{202F}' || c == '\U{205F}'
    || c == '\U{3000}' || c == '\U{FEFF}'
  }

  /** `\w` of an ECMAScript regular expression without the `u` flag. */
  predicate IsWordChar(c: char)
  {
    'a' <= c <= 'z' || 'A' <= c <= 'Z' || '0' <= c <= '9' || c == '_'
  }

  /** `\d` of an ECMAScript regular expression. */
  predicate IsDigit(c: char)
  {
    '0' <= c <= '9'
  }

  /** The characters that `.` does not match. */
  predicate IsLineTerminator(c: char)
  {
    c == '\n' || c == '\r' || c == '\U{2028}' || c == '\U{2029}'
  }

  /** Lower-casing keeps the position of every character. */
  lemma LowerAppend(a: string, b: string)
    ensures Lower(a + b) == Lower(a) + Lower(b)
  {
  }

  /** Two strings that differ only in the case of letters lower-case alike. */
  lemma SameUpToCaseLower(a: string, b: string)
    requires SameUpToCase(a, b)
    ensures Lower(a) == Lower(b)
  {
  }

  /** Whatever comes before or after it, an occurrence of `w` stays an occurrence. */
  lemma {:induction false} ContainsInfix(a: string, m: string, b: string, w: string)
    requires Contains(m, w)
    ensures Contains(a + m + b, w)
  {
    var i :| 0 <= i <= |m| && At(m, i, w);
    var s := a + m + b;
    assert s[|a| + i..|a| + i + |w|] == m[i..i + |w|];
    assert At(s, |a| + i, w);
  }
}
