/**
 * The two string operations the search box relies on: `String.prototype.trim` and
 * `String.prototype.toLowerCase`. Trimming uses the full ECMAScript WhiteSpace and
 * LineTerminator sets; lower-casing covers the ASCII letters only.
 */
module JsText {

  /** ECMAScript WhiteSpace (TAB, VT, FF, ZWNBSP and every space separator) or LineTerminator. */
  predicate IsJsSpace(c: char)
  {
    c == '\t' || c == '\n' || c == '\U{000B}' || c == '\U{000C}' || c == '\r' || c == ' '
    || c == '\U{00A0}' || c == '\U{1680}' || ('\U{2000}' <= c <= '\U{200A}')
    || c == '\U{2028}' || c == '\U{2029}' || c == '\U{202F}' || c == '\U{205F}'
    || c == '\U{3000}' || c == '\U{FEFF}'
  }

  predicate AllSpace(s: string)
  {
    forall i :: 0 <= i < |s| ==> IsJsSpace(s[i])
  }

  /** Drops the leading white space. */
  function TrimStart(s: string): (r: string)
    ensures |r| <= |s|
  {
    if s != [] && IsJsSpace(s[0]) then TrimStart(s[1..]) else s
  }

  /** What `TrimStart` leaves is a suffix of `s` that does not start with white space, and all
      that was dropped is space. */
  lemma {:induction false} TrimStartSuffix(s: string)
    ensures var r := TrimStart(s);
      r == s[|s| - |r|..] && AllSpace(s[..|s| - |r|]) && (r == [] || !IsJsSpace(r[0]))
  {
    if s != [] && IsJsSpace(s[0]) {
      TrimStartSuffix(s[1..]);
      var r := TrimStart(s);
      assert s[..|s| - |r|] == [s[0]] + s[1..][..|s| - 1 - |r|];
    }
  }

  /** Drops the trailing white space. */
  function TrimEnd(s: string): (r: string)
    ensures |r| <= |s|
  {
    if s != [] && IsJsSpace(s[|s| - 1]) then TrimEnd(s[..|s| - 1]) else s
  }

  /** What `TrimEnd` leaves is a prefix of `s` that does not end with white space, and all that
      was dropped is space. */
  lemma {:induction false} TrimEndPrefix(s: string)
    ensures var r := TrimEnd(s);
      r == s[..|r|] && AllSpace(s[|r|..]) && (r == [] || !IsJsSpace(r[|r| - 1]))
  {
    if s != [] && IsJsSpace(s[|s| - 1]) {
      TrimEndPrefix(s[..|s| - 1]);
      var r := TrimEnd(s);
      assert s[|r|..] == s[..|s| - 1][|r|..] + [s[|s| - 1]];
    }
  }

  /** `s.trim()`: the leading, then the trailing white space removed. */
  function Trim(s: string): (r: string)
    ensures |r| <= |s|
  {
    TrimEnd(TrimStart(s))
  }

  /** What `trim` leaves is a contiguous slice of `s` that neither starts nor ends with white
      space, everything outside it being white space. */
  lemma TrimSlice(s: string)
    ensures var r := Trim(s);
      && (exists i, j :: 0 <= i <= j <= |s| && r == s[i..j] && AllSpace(s[..i]) && AllSpace(s[j..]))
      && (r == [] || (!IsJsSpace(r[0]) && !IsJsSpace(r[|r| - 1])))
  {
    var t := TrimStart(s);
    var r := TrimEnd(t);
    TrimStartSuffix(s);
    TrimEndPrefix(t);
    assert r == s[|s| - |t|..|s| - |t| + |r|];
    assert s[|s| - |t| + |r|..] == t[|r|..];
  }

  lemma {:induction false} TrimStartOfNonSpace(s: string)
    requires s == [] || !IsJsSpace(s[0])
    ensures TrimStart(s) == s
  {
  }

  lemma {:induction false} TrimEndOfNonSpace(s: string)
    requires s == [] || !IsJsSpace(s[|s| - 1])
    ensures TrimEnd(s) == s
  {
  }

  /** Trimming twice gives what trimming once gives. */
  lemma TrimIdempotent(s: string)
    ensures Trim(Trim(s)) == Trim(s)
  {
    TrimSlice(s);
    var r := Trim(s);
    TrimStartOfNonSpace(r);
    TrimEndOfNonSpace(r);
  }

  /** A query is empty after trimming exactly when it consists of white space only. */
  lemma TrimEmptyIffAllSpace(s: string)
    ensures Trim(s) == [] <==> AllSpace(s)
  {
    TrimSlice(s);
  }

  /** ASCII `toLowerCase` on one character. */
  function LowerChar(c: char): (r: char)
    ensures 'A' <= c <= 'Z' ==> 'a' <= r <= 'z' && r as int - 'a' as int == c as int - 'A' as int
    ensures !('A' <= c <= 'Z') ==> r == c
    ensures !('A' <= r <= 'Z')
  {
    if 'A' <= c <= 'Z' then (c as int - 'A' as int + 'a' as int) as char else c
  }

  /** `s.toLowerCase()`, built from the front. */
  function ToLower(s: string): (r: string)
    ensures |r| == |s|
  {
    if s == [] then [] else [LowerChar(s[0])] + ToLower(s[1..])
  }

  /** Lower-casing maps every character on its own and keeps its position. */
  lemma {:induction false} ToLowerChars(s: string)
    ensures forall i :: 0 <= i < |s| ==> ToLower(s)[i] == LowerChar(s[i])
  {
    if s != [] {
      ToLowerChars(s[1..]);
      forall i | 1 <= i < |s| ensures ToLower(s)[i] == LowerChar(s[i]) {
        assert ToLower(s)[i] == ToLower(s[1..])[i - 1];
      }
    }
  }

  /** Lower-casing is idempotent, so comparing lowered strings ignores any earlier lowering. */
  lemma ToLowerIdempotent(s: string)
    ensures ToLower(ToLower(s)) == ToLower(s)
  {
    ToLowerChars(s);
    ToLowerChars(ToLower(s));
  }

  /** The two strings agree once both are lowered: a strict equality of their lower-cased forms. */
  predicate EqualIgnoringCase(a: string, b: string)
    ensures EqualIgnoringCase(a, b) ==> |a| == |b|
  {
    ToLower(a) == ToLower(b)
  }

  /** Strings that differ only in the case of ASCII letters, position by position, compare equal
      ignoring case. */
  lemma {:induction false} EqualIgnoringCaseOnLetters(a: string, b: string)
    requires |a| == |b|
    requires forall i :: 0 <= i < |a| ==> a[i] == b[i] || LowerChar(a[i]) == b[i] || a[i] == LowerChar(b[i])
    ensures EqualIgnoringCase(a, b)
  {
    ToLowerChars(a);
    ToLowerChars(b);
    var la, lb := ToLower(a), ToLower(b);
    forall i | 0 <= i < |a| ensures la[i] == lb[i] {
      if LowerChar(a[i]) == b[i] {
        assert LowerChar(b[i]) == b[i];
      } else if a[i] == LowerChar(b[i]) {
        assert LowerChar(a[i]) == a[i];
      }
    }
  }

  /** An ASCII letter, the only characters `toLowerCase` folds together here. */
  predicate IsAsciiLetter(c: char)
  {
    'A' <= c <= 'Z' || 'a' <= c <= 'z'
  }

  /** Conversely, strings equal ignoring case differ only where both hold letters of the same
      lower case, never elsewhere. */
  lemma EqualIgnoringCaseOnlyCase(a: string, b: string)
    requires EqualIgnoringCase(a, b)
    ensures |a| == |b|
    ensures forall i :: 0 <= i < |a| ==> LowerChar(a[i]) == LowerChar(b[i])
    ensures forall i :: 0 <= i < |a| ==> a[i] == b[i] || (IsAsciiLetter(a[i]) && IsAsciiLetter(b[i]))
  {
    ToLowerChars(a);
    ToLowerChars(b);
    forall i | 0 <= i < |a| ensures a[i] == b[i] || (IsAsciiLetter(a[i]) && IsAsciiLetter(b[i])) {
      assert ToLower(a)[i] == ToLower(b)[i];
    }
  }
}
