/**
 * The JavaScript string operations the components rely on: `trim`,
 * `toUpperCase`, `startsWith` and `replace` with a string pattern.
 */
module JsString {

  /** ECMAScript WhiteSpace and LineTerminator code points: what `trim` removes. */
  predicate IsWhitespace(c: char)
  {
    c == ' ' || c == '\t' || c == '\n' || c == '\r' || c == '\U{000B}' || c == '\U{000C}' ||
    c == '\U{00A0}' || c == '\U{1680}' || ('\U{2000}' <= c <= '\U{200A}') ||
    c == '\U{2028}' || c == '\U{2029}' || c == '\U{202F}' || c == '\U{205F}' ||
    c == '\U{3000}' || c == '\U{FEFF}'
  }

  /** Drops leading whitespace. */
  function TrimStart(s: string): (r: string)
    ensures |r| <= |s| && r == s[|s| - |r|..]
    ensures forall i :: 0 <= i < |s| - |r| ==> IsWhitespace(s[i])
    ensures r != [] ==> !IsWhitespace(r[0])
  {
    if s != [] && IsWhitespace(s[0]) then TrimStart(s[1..]) else s
  }

  /** Drops trailing whitespace. */
  function TrimEnd(s: string): (r: string)
    ensures |r| <= |s| && r == s[..|r|]
    ensures forall i :: |r| <= i < |s| ==> IsWhitespace(s[i])
    ensures r != [] ==> !IsWhitespace(r[|r| - 1])
  {
    if s != [] && IsWhitespace(s[|s| - 1]) then TrimEnd(s[..|s| - 1]) else s
  }

  /** `r` is the part of `s` at offset `a`, with only whitespace before and after it. */
  ghost predicate SurroundedByWhitespace(s: string, r: string, a: int)
  {
    0 <= a <= |s| - |r| && r == s[a..a + |r|] &&
    (forall i :: 0 <= i < a ==> IsWhitespace(s[i])) &&
    (forall i :: a + |r| <= i < |s| ==> IsWhitespace(s[i]))
  }

  /**
   * `trim`: the longest middle part of `s` that neither starts nor ends with
   * whitespace; only whitespace is removed around it.
   */
  function Trim(s: string): string
  {
    TrimEnd(TrimStart(s))
  }

  lemma TrimSpec(s: string)
    ensures exists a :: SurroundedByWhitespace(s, Trim(s), a)
    ensures Trim(s) != [] ==> !IsWhitespace(Trim(s)[0]) && !IsWhitespace(Trim(s)[|Trim(s)| - 1])
  {
    var t := TrimStart(s);
    var r := TrimEnd(t);
    if r != [] {
      assert r[0] == t[0];
    }
    assert r == Trim(s);
    assert SurroundedByWhitespace(s, r, |s| - |t|);
  }

  /** A string that neither starts nor ends with whitespace is its own trim. */
  lemma TrimKeepsTrimmed(s: string)
    requires s != [] ==> !IsWhitespace(s[0]) && !IsWhitespace(s[|s| - 1])
    ensures Trim(s) == s
  {
    assert TrimStart(s) == s;
    assert TrimEnd(s) == s;
  }

  predicate IsAsciiLower(c: char)
  {
    'a' <= c <= 'z'
  }

  /** `toUpperCase` of one character, for the ASCII letters. */
  function UpperChar(c: char): char
  {
    if IsAsciiLower(c) then (c as int - 32) as char else c
  }

  /** `toUpperCase`, character by character. */
  function ToUpper(s: string): (r: string)
    ensures |r| == |s|
  {
    seq(|s|, i requires 0 <= i < |s| => UpperChar(s[i]))
  }

  /** `toUpperCase` leaves no lower-case ASCII letter, and changes nothing else. */
  lemma ToUpperSpec(s: string)
    ensures forall i :: 0 <= i < |s| ==> !IsAsciiLower(ToUpper(s)[i])
    ensures forall i :: 0 <= i < |s| && !IsAsciiLower(s[i]) ==> ToUpper(s)[i] == s[i]
    ensures forall i :: 0 <= i < |s| && IsAsciiLower(s[i]) ==> ToUpper(s)[i] as int == s[i] as int - 32
  {
  }

  /** Upper-casing twice is upper-casing once. */
  lemma ToUpperIdempotent(s: string)
    ensures ToUpper(ToUpper(s)) == ToUpper(s)
  {
    var u := ToUpper(s);
    assert forall i :: 0 <= i < |u| ==> UpperChar(u[i]) == u[i];
  }

  predicate StartsWith(s: string, prefix: string)
  {
    |prefix| <= |s| && s[..|prefix|] == prefix
  }

  /** Occurrence of `pattern` in `s` at position `i`. */
  predicate OccursAt(s: string, pattern: string, i: int)
  {
    0 <= i && i + |pattern| <= |s| && s[i..i + |pattern|] == pattern
  }

  /** `indexOf(pattern, from)`: the first occurrence at or after `from`, or -1. */
  function IndexOfFrom(s: string, pattern: string, from: nat): (r: int)
    ensures r == -1 || (from <= r && OccursAt(s, pattern, r))
    ensures forall k :: from <= k && (r == -1 || k < r) ==> !OccursAt(s, pattern, k)
    decreases |s| - from
  {
    if from + |pattern| > |s| then -1
    else if OccursAt(s, pattern, from) then from
    else IndexOfFrom(s, pattern, from + 1)
  }

  /** `replace(pattern, replacement)` with a string pattern: the first occurrence only. */
  function Replace(s: string, pattern: string, replacement: string): (r: string)
  {
    var i := IndexOfFrom(s, pattern, 0);
    if i < 0 then s else s[..i] + replacement + s[i + |pattern|..]
  }

  /** Removing a prefix the string starts with leaves the rest of the string. */
  lemma ReplacePrefix(s: string, prefix: string)
    requires StartsWith(s, prefix)
    ensures Replace(s, prefix, "") == s[|prefix|..]
  {
    assert OccursAt(s, prefix, 0);
  }

  /** Removing `prefix` from a key that starts with it gives `rest` exactly when the key is `prefix + rest`. */
  lemma StripPrefixIff(key: string, prefix: string, rest: string)
    ensures (StartsWith(key, prefix) && Replace(key, prefix, "") == rest) <==> key == prefix + rest
  {
    if StartsWith(key, prefix) {
      ReplacePrefix(key, prefix);
      assert key == key[..|prefix|] + key[|prefix|..];
    }
    if key == prefix + rest {
      assert key[..|prefix|] == prefix;
      ReplacePrefix(key, prefix);
      assert key[|prefix|..] == rest;
    }
  }
}
