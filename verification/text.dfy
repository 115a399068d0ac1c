/** ASCII text helpers: the slice of Python's `str.lower()`, `str.upper()` and
    `in` on strings that the service-name lookup and the error messages rely on. */
module AsciiText {

  predicate IsUpper(c: char) { 'A' <= c <= 'Z' }

  predicate IsLower(c: char) { 'a' <= c <= 'z' }

  function LowerChar(c: char): char {
    if IsUpper(c) then (c as int + 32) as char else c
  }

  function UpperChar(c: char): char {
    if IsLower(c) then (c as int - 32) as char else c
  }

  /** The other-case spelling of an ASCII letter; any other character is its own swap. */
  function SwapCase(c: char): char {
    if IsUpper(c) then LowerChar(c) else if IsLower(c) then UpperChar(c) else c
  }

  function Lower(s: string): string {
    seq(|s|, i requires 0 <= i < |s| => LowerChar(s[i]))
  }

  function Upper(s: string): string {
    seq(|s|, i requires 0 <= i < |s| => UpperChar(s[i]))
  }

  /** `s` spells `t` with some letters' case flipped and nothing else changed. */
  predicate IsAsciiCaseVariant(s: string, t: string) {
    |s| == |t| && forall i :: 0 <= i < |s| ==> s[i] == t[i] || s[i] == SwapCase(t[i])
  }

  /** Python's `needle in hay` for strings: `needle` occurs as a contiguous block. */
  predicate Contains(hay: string, needle: string)
    decreases |hay|
  {
    needle <= hay || (|hay| > 0 && Contains(hay[1..], needle))
  }

  /** Two characters lower to the same character exactly when they are equal up to case. */
  lemma LowerCharAgree(a: char, b: char)
    ensures LowerChar(a) == LowerChar(b) <==> a == b || a == SwapCase(b)
  {
  }

  /** Being a case variant is the same as lowering to the same string. */
  lemma CaseVariantIffSameLower(s: string, t: string)
    ensures IsAsciiCaseVariant(s, t) <==> Lower(s) == Lower(t)
  {
    if IsAsciiCaseVariant(s, t) {
      forall i | 0 <= i < |s|
        ensures Lower(s)[i] == Lower(t)[i]
      {
        LowerCharAgree(s[i], t[i]);
      }
    }
    if Lower(s) == Lower(t) {
      assert |s| == |Lower(s)| == |Lower(t)| == |t|;
      forall i | 0 <= i < |s|
        ensures s[i] == t[i] || s[i] == SwapCase(t[i])
      {
        assert Lower(s)[i] == Lower(t)[i];
        LowerCharAgree(s[i], t[i]);
      }
    }
  }

  /** Lowering and uppercasing only flip the case of letters. */
  lemma LowerUpperAreVariants(s: string)
    ensures IsAsciiCaseVariant(Lower(s), s)
    ensures IsAsciiCaseVariant(Upper(s), s)
  {
  }

  lemma LowerIdempotent(s: string)
    ensures Lower(Lower(s)) == Lower(s)
  {
  }

  /** The middle part of a concatenation occurs in it. */
  lemma {:induction false} ContainsMiddle(a: string, b: string, c: string)
    ensures Contains(a + b + c, b)
    decreases |a|
  {
    if |a| == 0 {
      assert a + b + c == b + c;
      assert b <= b + c;
    } else {
      assert (a + b + c)[1..] == a[1..] + b + c;
      ContainsMiddle(a[1..], b, c);
    }
  }
}
