/** The JavaScript string operations the server relies on: `includes`, `trim`,
    `toLowerCase`, the regular-expression classes `.` and `\d`, the
    case-insensitive comparison of the `i` flag, and `parseInt` on a run of
    decimal digits. Strings are sequences of characters. */
module Text {

  /** The characters JavaScript's `.` refuses to match (ECMAScript LineTerminator). */
  predicate IsLineTerminator(c: char) {
    c == '\n' || c == '\r' || c == 0x2028 as char || c == 0x2029 as char
  }

  /** The characters `String.prototype.trim` removes: WhiteSpace and LineTerminator. */
  predicate IsWhitespace(c: char) {
    || c == '\t' || c == 0x0B as char || c == 0x0C as char || c == ' '
    || c == 0xA0 as char || c == 0x1680 as char
    || (0x2000 as char <= c <= 0x200A as char)
    || c == 0x202F as char || c == 0x205F as char || c == 0x3000 as char
    || c == 0xFEFF as char
    || IsLineTerminator(c)
  }

  /** The regular-expression class `\d`. */
  predicate IsDigit(c: char) {
    '0' <= c <= '9'
  }

  predicate AllDigits(s: string) {
    forall k :: 0 <= k < |s| ==> IsDigit(s[k])
  }

  /** The ASCII upper-case letter for a lower-case one; every other character unchanged.
      For a pattern made of ASCII characters, the `i` flag of a non-Unicode
      regular expression matches a text character exactly when both have the
      same image under this map (a non-ASCII character never canonicalises onto
      an ASCII one). */
  function Upper(c: char): (u: char)
    ensures ('a' <= c <= 'z') == ('A' <= u <= 'Z' && c != u)
  {
    if 'a' <= c <= 'z' then (c as int - 32) as char else c
  }

  function Lower(c: char): (l: char)
    ensures ('A' <= c <= 'Z') == ('a' <= l <= 'z' && c != l)
    ensures !('A' <= c <= 'Z') ==> l == c
  {
    if 'A' <= c <= 'Z' then (c as int + 32) as char else c
  }

  /** `toLowerCase`, on the ASCII letters. */
  function Lowered(s: string): (r: string)
    ensures |r| == |s|
    ensures forall k :: 0 <= k < |s| ==> r[k] == Lower(s[k])
  {
    seq(|s|, k requires 0 <= k < |s| => Lower(s[k]))
  }

  /** Lower-casing keeps a string on one line and leaves no upper-case letter in it. */
  lemma LoweredLine(s: string)
    requires SingleLine(s)
    ensures SingleLine(Lowered(s)) && NoUpperCase(Lowered(s))
  {
    forall k | 0 <= k < |s| ensures !IsLineTerminator(Lowered(s)[k]) && !('A' <= Lowered(s)[k] <= 'Z') {
      assert Lowered(s)[k] == Lower(s[k]);
    }
  }

  predicate NoUpperCase(s: string) {
    forall k :: 0 <= k < |s| ==> !('A' <= s[k] <= 'Z')
  }

  predicate SingleLine(s: string) {
    forall k :: 0 <= k < |s| ==> !IsLineTerminator(s[k])
  }

  /** What `(.*)` captures: the longest prefix of `s` without a line terminator. */
  function RestOfLine(s: string): (r: string)
    ensures r <= s && SingleLine(r)
    ensures |r| == |s| || IsLineTerminator(s[|r|])
  {
    if s == [] || IsLineTerminator(s[0]) then [] else [s[0]] + RestOfLine(s[1..])
  }

  /** What a greedy `(\d+)` captures at the front of `s` (empty when `s` does not start with a digit). */
  function DigitRun(s: string): (r: string)
    ensures r <= s && AllDigits(r)
    ensures |r| == |s| || !IsDigit(s[|r|])
  {
    if s == [] || !IsDigit(s[0]) then [] else [s[0]] + DigitRun(s[1..])
  }

  /** `parseInt` of a string of decimal digits (leading zeros allowed). */
  function DecimalValue(ds: string): nat
    requires AllDigits(ds)
  {
    if ds == [] then 0
    else DecimalValue(ds[..|ds| - 1]) * 10 + (ds[|ds| - 1] as int - '0' as int)
  }

  /** A string that `trim` leaves unchanged. */
  predicate Trimmed(s: string) {
    s == [] || (!IsWhitespace(s[0]) && !IsWhitespace(s[|s| - 1]))
  }

  function TrimStart(s: string): (r: string)
    ensures |r| <= |s| && r == s[|s| - |r|..]
    ensures r == [] || !IsWhitespace(r[0])
    ensures forall k :: 0 <= k < |s| - |r| ==> IsWhitespace(s[k])
  {
    if s != [] && IsWhitespace(s[0]) then TrimStart(s[1..]) else s
  }

  function TrimEnd(s: string): (r: string)
    ensures r <= s
    ensures r == [] || !IsWhitespace(r[|r| - 1])
    ensures forall k :: |r| <= k < |s| ==> IsWhitespace(s[k])
  {
    if s != [] && IsWhitespace(s[|s| - 1]) then TrimEnd(s[..|s| - 1]) else s
  }

  /** `r` is the infix `s[i..j]`, and everything of `s` outside it is whitespace. */
  predicate WhitespaceAround(s: string, r: string, i: int, j: int) {
    && 0 <= i <= j <= |s| && r == s[i..j]
    && (forall k :: 0 <= k < i ==> IsWhitespace(s[k]))
    && (forall k :: j <= k < |s| ==> IsWhitespace(s[k]))
  }

  /** `String.prototype.trim`: the infix left after dropping the whitespace at both ends. */
  function Trim(s: string): (r: string)
    ensures Trimmed(r)
    ensures exists i, j :: WhitespaceAround(s, r, i, j)
  {
    var t := TrimStart(s);
    var r := TrimEnd(t);
    WhitespaceBeforeAndAfter(s, t, r);
    r
  }

  /** Dropping leading whitespace (`s` to `t`) and then trailing whitespace
      (`t` to `r`) leaves an infix of `s` with only whitespace around it. */
  lemma WhitespaceBeforeAndAfter(s: string, t: string, r: string)
    requires |t| <= |s| && t == s[|s| - |t|..]
    requires forall k :: 0 <= k < |s| - |t| ==> IsWhitespace(s[k])
    requires r <= t
    requires forall k :: |r| <= k < |t| ==> IsWhitespace(t[k])
    ensures WhitespaceAround(s, r, |s| - |t|, |s| - |t| + |r|)
  {
    var i := |s| - |t|;
    assert r == s[i..i + |r|] by {
      forall k | 0 <= k < |r|
        ensures r[k] == s[i + k]
      {
        assert r[k] == t[k];
      }
    }
    forall k | i + |r| <= k < |s|
      ensures IsWhitespace(s[k])
    {
      assert s[k] == t[k - i];
    }
  }

  lemma TrimmedTrim(s: string)
    requires Trimmed(s)
    ensures Trim(s) == s
  {
  }

  /** `t` occurs in `s` starting at index `i`. */
  predicate OccursAt(s: string, t: string, i: nat) {
    i + |t| <= |s| && s[i..i + |t|] == t
  }

  /** `s.includes(t)`. */
  predicate Contains(s: string, t: string) {
    exists i: nat | i <= |s| :: OccursAt(s, t, i)
  }

  /** A string contains each of its own prefixes. */
  lemma ContainsPrefix(s: string, t: string)
    requires t <= s
    ensures Contains(s, t)
  {
    assert OccursAt(s, t, 0);
  }

  lemma ContainsTransitive(s: string, t: string, u: string)
    requires Contains(s, t) && Contains(t, u)
    ensures Contains(s, u)
  {
    var i: nat :| i <= |s| && OccursAt(s, t, i);
    var j: nat :| j <= |t| && OccursAt(t, u, j);
    assert i + |t| <= |s| && s[i..i + |t|] == t;
    assert j + |u| <= |t| && t[j..j + |u|] == u;
    forall k | 0 <= k < |u| ensures s[i + j + k] == u[k] {
      assert s[i + j + k] == s[i..i + |t|][j + k];
      assert u[k] == t[j..j + |u|][k];
    }
    assert OccursAt(s, u, i + j);
  }

  /** A string cannot contain `t` when one of the characters of `t` never occurs in it. */
  lemma MissingCharNotContained(s: string, t: string, k: nat)
    requires k < |t| && t[k] !in s
    ensures !Contains(s, t)
  {
    forall i: nat | i + |t| <= |s| ensures !OccursAt(s, t, i) {
      assert s[i..i + |t|][k] == s[i + k];
    }
  }

  lemma SingleLineInfix(s: string, i: nat, j: nat)
    requires SingleLine(s) && i <= j <= |s|
    ensures SingleLine(s[i..j])
  {
    assert forall k :: 0 <= k < j - i ==> s[i..j][k] == s[i + k];
  }

  lemma TrimSingleLine(s: string)
    requires SingleLine(s)
    ensures SingleLine(Trim(s))
  {
    var i, j :| 0 <= i <= j <= |s| && Trim(s) == s[i..j];
    SingleLineInfix(s, i, j);
  }

  /** `RestOfLine` stops at the first line terminator: if `s[..n]` is on one line
      and a terminator (or the end) follows, the captured line is `s[..n]`. */
  lemma {:induction false} RestOfLineIs(s: string, n: nat)
    requires n <= |s| && SingleLine(s[..n])
    requires n == |s| || IsLineTerminator(s[n])
    ensures RestOfLine(s) == s[..n]
  {
    if n > 0 {
      assert s[..n][0] == s[0];
      assert s[1..][..n - 1] == s[..n][1..];
      SingleLineInfix(s[..n], 1, n);
      RestOfLineIs(s[1..], n - 1);
    }
  }

  /** `DigitRun` is greedy: if `s[..n]` is all digits and no digit follows, the run is `s[..n]`. */
  lemma {:induction false} DigitRunIs(s: string, n: nat)
    requires n <= |s| && AllDigits(s[..n])
    requires n == |s| || !IsDigit(s[n])
    ensures DigitRun(s) == s[..n]
  {
    if n > 0 {
      assert s[..n][0] == s[0];
      assert s[1..][..n - 1] == s[..n][1..];
      DigitRunIs(s[1..], n - 1);
    }
  }

  /** Equality of two strings with letters compared as the `i` flag compares them. */
  predicate EqualIgnoringCase(a: string, b: string) {
    |a| == |b| && (a == [] || (Upper(a[0]) == Upper(b[0]) && EqualIgnoringCase(a[1..], b[1..])))
  }

  lemma {:induction false} EqualIgnoringCaseRefl(a: string)
    ensures EqualIgnoringCase(a, a)
  {
    if a != [] {
      EqualIgnoringCaseRefl(a[1..]);
    }
  }

  /** Strings that differ at one position, letter case aside, are not equal ignoring case. */
  lemma {:induction false} DifferAt(a: string, b: string, k: nat)
    requires |a| == |b| && k < |a| && Upper(a[k]) != Upper(b[k])
    ensures !EqualIgnoringCase(a, b)
  {
    if k > 0 {
      DifferAt(a[1..], b[1..], k - 1);
    }
  }
}
