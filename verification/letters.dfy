/**
 Names for generic type variables: the counter value `c` is written in
 bijective base 26 over the digits 'a'..'z' (no zero digit), so the names
 run a, b, ..., z, aa, ab, ..., az, ba, ... like spreadsheet columns.
 */
module Letters {

  const AlphabetLength: nat := 26
  const CharOffset: nat := 97

  predicate IsLetter(c: char) {
    'a' <= c <= 'z'
  }

  /** A non-empty string of lower-case letters: the shape of every generated name. */
  predicate IsLetterName(s: string) {
    |s| > 0 && forall i | 0 <= i < |s| :: IsLetter(s[i])
  }

  function Letter(d: nat): (c: char)
    requires d < AlphabetLength
    ensures IsLetter(c)
  {
    (CharOffset + d) as char
  }

  function Digit(c: char): (d: nat)
    requires IsLetter(c)
    ensures d < AlphabetLength && Letter(d) == c
  {
    c as nat - CharOffset
  }

  /** Reference definition: the bijective base-26 numeral of `c`. */
  function LetterName(c: nat): (s: string)
    ensures IsLetterName(s)
    decreases c
  {
    if c < AlphabetLength then [Letter(c)]
    else LetterName(c / AlphabetLength - 1) + [Letter(c % AlphabetLength)]
  }

  /** The inverse of `LetterName`: the counter value a name stands for. */
  function LetterNameValue(s: string): (c: nat)
    requires IsLetterName(s)
    decreases |s|
  {
    if |s| == 1 then Digit(s[0])
    else (LetterNameValue(s[..|s| - 1]) + 1) * AlphabetLength + Digit(s[|s| - 1])
  }

  lemma {:induction false} LetterNameValueOfLetterName(c: nat)
    ensures LetterNameValue(LetterName(c)) == c
    decreases c
  {
    if c >= AlphabetLength {
      var q := c / AlphabetLength - 1;
      var s := LetterName(c);
      assert s[..|s| - 1] == LetterName(q);
      LetterNameValueOfLetterName(q);
    }
  }

  lemma {:induction false} LetterNameOfLetterNameValue(s: string)
    requires IsLetterName(s)
    ensures LetterName(LetterNameValue(s)) == s
    decreases |s|
  {
    if |s| > 1 {
      var init := s[..|s| - 1];
      var d := Digit(s[|s| - 1]);
      LetterNameOfLetterNameValue(init);
      var v := LetterNameValue(s);
      assert v == (LetterNameValue(init) + 1) * AlphabetLength + d;
      assert v / AlphabetLength - 1 == LetterNameValue(init);
      assert v % AlphabetLength == d;
      assert s == init + [s[|s| - 1]];
    }
  }

  /** Distinct counter values give distinct names. */
  lemma LetterNameInjective(c1: nat, c2: nat)
    ensures LetterName(c1) == LetterName(c2) ==> c1 == c2
  {
    LetterNameValueOfLetterName(c1);
    LetterNameValueOfLetterName(c2);
  }

  function Reverse(s: string): (r: string)
    ensures |r| == |s|
    ensures forall i | 0 <= i < |s| :: r[i] == s[|s| - 1 - i]
  {
    if |s| == 0 then [] else Reverse(s[1..]) + [s[0]]
  }

  /**
   The loop of `next_letter`: push the low digit of `rest`, stop once the
   quotient is zero, otherwise continue with the quotient minus one; the
   pushed characters are reversed at the end. It computes the bijective
   base-26 numeral of `rest`, written in front of the characters already
   pushed.
   */
  function LetterLoop(rest: nat, chars: string): (r: string)
    ensures r == LetterName(rest) + Reverse(chars)
    decreases rest
  {
    var n := rest % AlphabetLength;
    var rest' := rest / AlphabetLength;
    var chars' := chars + [Letter(n)];
    assert Reverse(chars') == [Letter(n)] + Reverse(chars);
    if rest' == 0 then Reverse(chars')
    else
      var r := LetterLoop(rest' - 1, chars');
      assert LetterName(rest) == LetterName(rest' - 1) + [Letter(n)];
      r
  }

  /** The names Gleam's `next_letter_test` expects for the first counter values. */
  lemma LetterNameExamples()
    ensures LetterName(0) == "a" && LetterName(25) == "z"
    ensures LetterName(26) == "aa" && LetterName(51) == "az"
    ensures LetterName(52) == "ba" && LetterName(77) == "bz"
  {
  }
}
