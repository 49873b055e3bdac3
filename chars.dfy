/**
  ASCII character classes used by the script's regular expressions.
  Python's `\d` and `\w` also accept non-ASCII digits and letters; this model
  restricts them to ASCII.
 */
module Chars {

  /** `[0-9]`, and `\d` restricted to ASCII. */
  predicate IsDigit(c: char) {
    '0' <= c <= '9'
  }

  /** `[0-9a-zA-Z]` */
  predicate IsAlnum(c: char) {
    IsDigit(c) || 'a' <= c <= 'z' || 'A' <= c <= 'Z'
  }

  /** `\w` restricted to ASCII: letters, digits and the underscore. */
  predicate IsWordChar(c: char) {
    IsAlnum(c) || c == '_'
  }

  /** `[0-9a-zA-Z \-]`, the characters allowed in the table part of a file name. */
  predicate IsTableChar(c: char) {
    IsAlnum(c) || c == ' ' || c == '-'
  }

  predicate AllDigits(s: string) {
    forall i :: 0 <= i < |s| ==> IsDigit(s[i])
  }

  /** A string matched by `\w+`. */
  predicate IsWord(s: string) {
    |s| > 0 && forall i :: 0 <= i < |s| ==> IsWordChar(s[i])
  }

  /** A string matched by `[0-9a-zA-Z \-]+`. */
  predicate IsTableTag(s: string) {
    |s| > 0 && forall i :: 0 <= i < |s| ==> IsTableChar(s[i])
  }

  /**
    Python's `$` (without MULTILINE) matches at the end of the string and also
    just before one final newline: `s` is what a pattern anchored by `$` accepts
    when the part before `$` consumed exactly `body`.
   */
  predicate EndsAt(s: string, body: string) {
    s == body || s == body + "\n"
  }

  /** Two words joined by an underscore form a word. */
  lemma WordJoin(a: string, b: string)
    requires IsWord(a) && IsWord(b)
    ensures IsWord(a + "_" + b)
  {
    var s := a + "_" + b;
    forall k | 0 <= k < |s| ensures IsWordChar(s[k]) {
      if k < |a| { assert s[k] == a[k]; }
      else if k > |a| { assert s[k] == b[k - |a| - 1]; }
    }
  }

  /** The parts of a word split at two underscores are words. */
  lemma WordParts(a: string, b: string, c: string)
    requires IsWord(a + "_" + b + "_" + c) && |a| > 0 && |b| > 0 && |c| > 0
    ensures IsWord(a) && IsWord(b) && IsWord(c)
  {
    var s := a + "_" + b + "_" + c;
    assert forall k :: 0 <= k < |a| ==> s[k] == a[k];
    assert forall k :: 0 <= k < |b| ==> s[|a| + 1 + k] == b[k];
    assert forall k :: 0 <= k < |c| ==> s[|a| + |b| + 2 + k] == c[k];
  }
}
