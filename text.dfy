/**
 * The string operations the screens use on recognised speech:
 * `lowercase(Locale.ROOT)`, `contains` and `isBlank`.
 */
module Text {

  predicate IsUpper(c: char) {
    'A' <= c <= 'Z'
  }

  /** Lower-cases one character (the ASCII part of `Char.lowercaseChar`). */
  function LowerChar(c: char): (r: char)
    ensures !IsUpper(r)
    ensures !IsUpper(c) ==> r == c
    ensures IsUpper(c) ==> r as int == c as int + 32
  {
    if IsUpper(c) then (c as int + 32) as char else c
  }

  /** `String.lowercase(Locale.ROOT)`, character by character. */
  function Lower(s: string): (r: string)
    ensures |r| == |s|
    ensures forall i :: 0 <= i < |s| ==> r[i] == LowerChar(s[i])
  {
    if s == [] then [] else [LowerChar(s[0])] + Lower(s[1..])
  }

  predicate IsLowerCase(s: string) {
    forall i :: 0 <= i < |s| ==> !IsUpper(s[i])
  }

  /** Lower-casing yields lower-case text and changes nothing more when repeated. */
  lemma LowerIsLowerCase(s: string)
    ensures IsLowerCase(Lower(s))
    ensures Lower(Lower(s)) == Lower(s)
  {
    assert forall i :: 0 <= i < |s| ==> Lower(Lower(s))[i] == Lower(s)[i];
  }

  /** Text already in lower case is its own lower-cased form. */
  lemma {:induction false} LowerOfLowerCase(s: string)
    requires IsLowerCase(s)
    ensures Lower(s) == s
  {
    if s != [] {
      LowerOfLowerCase(s[1..]);
    }
  }

  /** `s.startsWith(p)`. */
  predicate StartsWith(s: string, p: string) {
    |p| <= |s| && s[..|p|] == p
  }

  /** `s.contains(p)`: `p` occurs in `s` at some position. */
  predicate Contains(s: string, p: string)
    decreases |s|
  {
    StartsWith(s, p) || (s != [] && Contains(s[1..], p))
  }

  /** `p` occurs in `s` starting at position `i`. */
  predicate OccursAt(s: string, p: string, i: nat) {
    i + |p| <= |s| && s[i..i + |p|] == p
  }

  /** An occurrence at position `i` makes `p` a substring of `s`. */
  lemma {:induction false} ContainsAt(s: string, p: string, i: nat)
    requires OccursAt(s, p, i)
    ensures Contains(s, p)
    decreases i
  {
    if i > 0 {
      assert s[1..][i - 1..i - 1 + |p|] == s[i..i + |p|];
      ContainsAt(s[1..], p, i - 1);
    }
  }

  /** Every substring occurs at some position: the converse of ContainsAt. */
  lemma {:induction false} ContainsHasPosition(s: string, p: string)
    requires Contains(s, p)
    ensures exists i: nat :: OccursAt(s, p, i)
    decreases |s|
  {
    if StartsWith(s, p) {
      assert OccursAt(s, p, 0);
    } else {
      ContainsHasPosition(s[1..], p);
      var i: nat :| OccursAt(s[1..], p, i);
      assert s[1..][i..i + |p|] == s[i + 1..i + 1 + |p|];
      assert OccursAt(s, p, i + 1);
    }
  }

  /** Each character of a substring occurs in the text that contains it. */
  lemma {:induction false} CharOfContained(s: string, p: string, c: char)
    requires c in p
    ensures Contains(s, p) ==> c in s
    decreases |s|
  {
    if StartsWith(s, p) {
      assert c in s[..|p|];
    }
    if s != [] {
      CharOfContained(s[1..], p, c);
    }
  }

  /** Kotlin's `Char.isWhitespace` on the ASCII range and the Java separators below space. */
  predicate IsWhitespace(c: char) {
    c == ' ' || c == '\t' || c == '\n' || c == '\r' || c == '\U{B}' || c == '\U{C}' ||
    ('\U{1C}' <= c <= '\U{1F}')
  }

  /** `String.isBlank()`: empty, or nothing but whitespace. */
  predicate IsBlank(s: string) {
    forall i :: 0 <= i < |s| ==> IsWhitespace(s[i])
  }

  /** A blank text contains no pattern that has a non-whitespace character. */
  lemma BlankContainsNoWord(s: string, p: string, c: char)
    requires IsBlank(s) && c in p && !IsWhitespace(c)
    ensures !Contains(s, p)
  {
    CharOfContained(s, p, c);
  }
}
