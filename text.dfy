/** The string operations of Python that the layout code relies on, on code points. */
module Text {

  /** Python's `c * k` for a one-character string: `k` copies, and nothing when `k <= 0`. */
  function Repeat(c: char, k: int): (r: string)
    ensures |r| == if k <= 0 then 0 else k
    ensures forall i :: 0 <= i < |r| ==> r[i] == c
  {
    if k <= 0 then [] else seq(k, _ => c)
  }

  /** Python's `' ' * k`. */
  function Spaces(k: int): (r: string)
    ensures |r| == if k <= 0 then 0 else k
    ensures forall i :: 0 <= i < |r| ==> r[i] == ' '
  {
    Repeat(' ', k)
  }

  function Max(a: int, b: int): int { if a < b then b else a }

  /** Python's `sep.join(parts)`. */
  function Join(sep: string, parts: seq<string>): string
    decreases |parts|
  {
    if |parts| == 0 then ""
    else if |parts| == 1 then parts[0]
    else parts[0] + sep + Join(sep, parts[1..])
  }

  /** The sum of the lengths of `parts`. */
  function TotalLength(parts: seq<string>): nat
    decreases |parts|
  {
    if parts == [] then 0 else |parts[0]| + TotalLength(parts[1..])
  }

  /** A join is as long as its parts plus one separator between each two of them. */
  lemma {:induction false} JoinLength(sep: string, parts: seq<string>)
    requires |parts| > 0
    ensures |Join(sep, parts)| == TotalLength(parts) + |sep| * (|parts| - 1)
    decreases |parts|
  {
    if |parts| > 1 {
      JoinLength(sep, parts[1..]);
    }
  }

  /** Parts that all have length `k` add up to `k` times their number. */
  lemma {:induction false} TotalLengthUniform(parts: seq<string>, k: nat)
    requires forall i :: 0 <= i < |parts| ==> |parts[i]| == k
    ensures TotalLength(parts) == k * |parts|
    decreases |parts|
  {
    if parts != [] {
      TotalLengthUniform(parts[1..], k);
    }
  }

  /** The ASCII upper case of a character; every other character is kept. */
  function UpperChar(c: char): char
  {
    if 'a' <= c <= 'z' then (c as int - 32) as char else c
  }

  /** The ASCII lower case of a character; every other character is kept. */
  function LowerChar(c: char): char
  {
    if 'A' <= c <= 'Z' then (c as int + 32) as char else c
  }

  predicate NotAsciiUpper(c: char) { !('A' <= c <= 'Z') }

  predicate NotAsciiLower(c: char) { !('a' <= c <= 'z') }

  /** Python's `str.upper()`, restricted to ASCII letters. */
  function Upper(s: string): (r: string)
    ensures |r| == |s|
    ensures forall i :: 0 <= i < |r| ==> NotAsciiLower(r[i])
    ensures forall i :: 0 <= i < |r| && !('a' <= s[i] <= 'z') ==> r[i] == s[i]
  {
    seq(|s|, i requires 0 <= i < |s| => UpperChar(s[i]))
  }

  /** Python's `str.lower()`, restricted to ASCII letters. */
  function Lower(s: string): (r: string)
    ensures |r| == |s|
    ensures forall i :: 0 <= i < |r| ==> NotAsciiUpper(r[i])
    ensures forall i :: 0 <= i < |r| && !('A' <= s[i] <= 'Z') ==> r[i] == s[i]
  {
    seq(|s|, i requires 0 <= i < |s| => LowerChar(s[i]))
  }

  /** Python's `str.capitalize()`: the first letter upper case, all others lower case. */
  function Capitalize(s: string): (r: string)
    ensures |r| == |s|
    ensures |r| > 0 ==> NotAsciiLower(r[0])
    ensures forall i :: 1 <= i < |r| ==> NotAsciiUpper(r[i])
  {
    if s == [] then [] else [UpperChar(s[0])] + Lower(s[1..])
  }

  /** Upper keeps every letter: the result and the input agree when both are lower-cased. */
  lemma UpperSameLetters(s: string)
    ensures forall i :: 0 <= i < |s| ==> LowerChar(Upper(s)[i]) == LowerChar(s[i])
  {
  }

  /** Lower keeps every letter: the result and the input agree when both are upper-cased. */
  lemma LowerSameLetters(s: string)
    ensures forall i :: 0 <= i < |s| ==> UpperChar(Lower(s)[i]) == UpperChar(s[i])
  {
  }

  /** Capitalize keeps every letter: the first agrees with the input lower-cased, the rest upper-cased. */
  lemma CapitalizeSameLetters(s: string)
    ensures |s| > 0 ==> LowerChar(Capitalize(s)[0]) == LowerChar(s[0])
    ensures forall i :: 1 <= i < |s| ==> UpperChar(Capitalize(s)[i]) == UpperChar(s[i])
  {
    if |s| > 0 {
      var rest := Lower(s[1..]);
      assert Capitalize(s) == [UpperChar(s[0])] + rest;
      LowerSameLetters(s[1..]);
      forall i | 1 <= i < |s| ensures UpperChar(Capitalize(s)[i]) == UpperChar(s[i]) {
        assert Capitalize(s)[i] == rest[i - 1] && s[1..][i - 1] == s[i];
      }
    }
  }
}
