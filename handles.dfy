/**
 * The handle regular expressions of the source. Each one has the shape
 * `^@?[class]{min,max}$`: an optional leading `@`, then between `min` and
 * `max` characters of one class, and nothing else. Every class used holds the
 * ASCII letters of both cases (either through `\w` or through `[a-z]` with the
 * `i` flag) and the ASCII digits, plus a few punctuation characters, and none
 * holds `@`; so an `@?` consumes a leading `@` exactly when there is one.
 */
module Handles {
  import opened Wrappers

  predicate IsAsciiLetter(c: char) {
    'a' <= c <= 'z' || 'A' <= c <= 'Z'
  }

  predicate IsAsciiDigit(c: char) {
    '0' <= c <= '9'
  }

  /** A character class: ASCII letters, ASCII digits and `extra`. */
  datatype CharClass = CharClass(extra: set<char>)

  predicate InClass(cc: CharClass, c: char) {
    IsAsciiLetter(c) || IsAsciiDigit(c) || c in cc.extra
  }

  /** `^@?[chars]{minLen,maxLen}$`, without the `@?` when `optionalAt` is false and without an upper bound when `maxLen` is `None`. */
  datatype Pattern = Pattern(optionalAt: bool, chars: CharClass, minLen: nat, maxLen: Option<nat>) {

    /** The longest string the pattern accepts, if it has a bound: the class part plus the optional `@`. */
    function Longest(): Option<nat> {
      match maxLen
      case Some(n) => Some(if optionalAt then n + 1 else n)
      case None => None
    }
  }

  /** `s` without one leading `@`: `s.startsWith('@') ? s.slice(1) : s`. */
  function StripAt(s: string): (r: string)
    ensures |s| > 0 && s[0] == '@' ==> s == "@" + r
    ensures !(|s| > 0 && s[0] == '@') ==> r == s
  {
    if |s| > 0 && s[0] == '@' then s[1..] else s
  }

  /** The part of `s` that the class must cover: all of it, less the `@` an `@?` consumes. */
  function Body(pat: Pattern, s: string): string {
    if pat.optionalAt then StripAt(s) else s
  }

  /** `pat.test(s)`. */
  predicate Matches(pat: Pattern, s: string)
    ensures Matches(pat, s) ==> pat.minLen <= |s| && (pat.Longest().Some? ==> |s| <= pat.Longest().value)
  {
    var b := Body(pat, s);
    && pat.minLen <= |b|
    && (pat.maxLen.Some? ==> |b| <= pat.maxLen.value)
    && forall i :: 0 <= i < |b| ==> InClass(pat.chars, b[i])
  }

  /** A string a pattern accepts is never longer than the pattern's bound, and is made only of the pattern's characters. */
  lemma MatchBounds(pat: Pattern, s: string)
    requires Matches(pat, s)
    ensures pat.Longest().Some? ==> |s| <= pat.Longest().value
    ensures |s| >= pat.minLen
    ensures forall i :: 0 <= i < |s| ==> InClass(pat.chars, s[i]) || (i == 0 && pat.optionalAt && s[0] == '@')
  {
    var b := Body(pat, s);
    if pat.optionalAt && |s| > 0 && s[0] == '@' {
      assert forall i :: 1 <= i < |s| ==> s[i] == b[i - 1];
    }
  }
}
