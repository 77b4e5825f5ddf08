/** String helpers with the meaning Python gives them in the runner:
    `str.lower()` for the ASCII letters, the substring test `kw in s`, and the slice `s[:n]`. */
module Text {

  predicate IsUpper(c: char) {
    'A' <= c <= 'Z'
  }

  predicate IsLowerLetter(c: char) {
    'a' <= c <= 'z'
  }

  /** A word made only of the letters a to z, such as the classifier keywords. */
  predicate IsLowerWord(kw: string) {
    forall k :: 0 <= k < |kw| ==> IsLowerLetter(kw[k])
  }

  function LowerChar(c: char): char {
    if IsUpper(c) then (c as int + 32) as char else c
  }

  function UpperChar(c: char): char {
    if IsLowerLetter(c) then (c as int - 32) as char else c
  }

  /** `s.lower()`, restricted to the letters A to Z; every other character is kept. */
  function AsciiLower(s: string): (r: string)
    ensures |r| == |s|
    ensures forall i :: 0 <= i < |s| ==> r[i] == LowerChar(s[i])
  {
    if s == [] then [] else [LowerChar(s[0])] + AsciiLower(s[1..])
  }

  /** `kw` starts at position `i` of `s`. */
  predicate OccursAt(s: string, i: nat, kw: string) {
    i + |kw| <= |s| && s[i..i + |kw|] == kw
  }

  /** Python's `kw in s`. */
  predicate Contains(s: string, kw: string) {
    exists i | 0 <= i <= |s| :: OccursAt(s, i, kw)
  }

  /** Python's `s[:n]`: the first `n` characters, or all of `s` when it is shorter. */
  function Prefix(s: string, n: nat): (r: string)
    ensures |r| == if |s| < n then |s| else n
    ensures r <= s
  {
    if |s| < n then s else s[..n]
  }

  /** `kw` starts at position `i` of `s` when each letter may be written in either case:
      an independent statement of "case-insensitive match" for a lower-case keyword. */
  ghost predicate MatchesIgnoringCase(s: string, i: nat, kw: string) {
    i + |kw| <= |s| &&
    forall k :: 0 <= k < |kw| ==> s[i + k] == kw[k] || s[i + k] == UpperChar(kw[k])
  }

  lemma LowerCharMatches(c: char, l: char)
    requires IsLowerLetter(l)
    ensures LowerChar(c) == l <==> c == l || c == UpperChar(l)
  {
  }

  lemma OccursAtLowerIff(s: string, i: nat, kw: string)
    requires IsLowerWord(kw)
    ensures OccursAt(AsciiLower(s), i, kw) <==> MatchesIgnoringCase(s, i, kw)
  {
    var low := AsciiLower(s);
    if i + |kw| <= |s| {
      forall k | 0 <= k < |kw|
        ensures low[i + k] == kw[k] <==> s[i + k] == kw[k] || s[i + k] == UpperChar(kw[k])
      {
        LowerCharMatches(s[i + k], kw[k]);
      }
      if MatchesIgnoringCase(s, i, kw) {
        assert low[i..i + |kw|] == kw;
      }
      if OccursAt(low, i, kw) {
        forall k | 0 <= k < |kw| ensures low[i + k] == kw[k] {
          assert low[i..i + |kw|][k] == low[i + k];
        }
      }
    }
  }

  /** Lowering the text and searching for a lower-case keyword is the same as a
      case-insensitive search of the original text. */
  lemma ContainsLowerIff(s: string, kw: string)
    requires IsLowerWord(kw)
    ensures Contains(AsciiLower(s), kw) <==> exists i :: 0 <= i <= |s| && MatchesIgnoringCase(s, i, kw)
  {
    if Contains(AsciiLower(s), kw) {
      var i :| 0 <= i <= |AsciiLower(s)| && OccursAt(AsciiLower(s), i, kw);
      OccursAtLowerIff(s, i, kw);
    }
    if exists i :: 0 <= i <= |s| && MatchesIgnoringCase(s, i, kw) {
      var i :| 0 <= i <= |s| && MatchesIgnoringCase(s, i, kw);
      OccursAtLowerIff(s, i, kw);
    }
  }
}
