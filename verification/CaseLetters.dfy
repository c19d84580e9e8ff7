/** The two key conversions letter by letter, over the alphabets written out. */
module CaseLetters {
  import opened CaseKeys

  const SMALL := "abcdefghijklmnopqrstuvwxyz"
  const CAPITAL := "ABCDEFGHIJKLMNOPQRSTUVWXYZ"

  predicate From(letters: string, first: char) {
    |letters| == 26 && first < 'b' && forall i :: 0 <= i < 26 ==> letters[i] == first + i as char
  }

  predicate Alphabets(small: string, capital: string) { From(small, 'a') && From(capital, 'A') }

  lemma SmallLetters()
    ensures From(SMALL, 'a')
  {}

  lemma CapitalLetters()
    ensures From(CAPITAL, 'A')
  {}

  lemma LettersOf(small: string, capital: string, c: char)
    requires Alphabets(small, capital)
    ensures Lower(c) <==> c in small
    ensures Upper(c) <==> c in capital
  {
    if Lower(c) { assert small[(c - 'a') as int] == c; }
    if Upper(c) { assert capital[(c - 'A') as int] == c; }
  }

  lemma CamelSteps(letter: char, c: char, tail: string)
    requires Lower(letter)
    ensures Camel(['_', letter] + tail) == [ToUpper(letter)] + Camel(tail)
    ensures !(c == '_' && tail != [] && Lower(tail[0])) ==> Camel([c] + tail) == [c] + Camel(tail)
  {
    assert (['_', letter] + tail)[2..] == tail;
    assert ([c] + tail)[1..] == tail;
  }

  lemma SnakeSteps(letter: char, c: char, tail: string)
    requires Upper(letter)
    ensures Snake([letter] + tail) == ['_', ToLower(letter)] + Snake(tail)
    ensures !Upper(c) ==> Snake([c] + tail) == [c] + Snake(tail)
  {
    assert ([letter] + tail)[1..] == tail;
    assert ([c] + tail)[1..] == tail;
  }

  lemma SamePlace(small: string, capital: string, i: nat)
    requires Alphabets(small, capital) && i < 26
    ensures Lower(small[i]) && ToUpper(small[i]) == capital[i]
    ensures Upper(capital[i]) && ToLower(capital[i]) == small[i]
  {}

  /** Camel: an underscore with a small letter becomes the capital of the same place, and all else stays. */
  lemma CamelByLetters(c: char, i: nat, tail: string)
    requires i < 26
    ensures |SMALL| == |CAPITAL| == 26 && Camel("") == ""
    ensures Camel(['_', SMALL[i]] + tail) == [CAPITAL[i]] + Camel(tail)
    ensures !(c == '_' && tail != [] && tail[0] in SMALL) ==> Camel([c] + tail) == [c] + Camel(tail)
  {
    SmallLetters();
    CapitalLetters();
    SamePlace(SMALL, CAPITAL, i);
    CamelSteps(SMALL[i], c, tail);
    if tail != [] { LettersOf(SMALL, CAPITAL, tail[0]); }
  }

  /** Snake: a capital becomes an underscore with the small letter of the same place, and all else stays. */
  lemma SnakeByLetters(c: char, i: nat, tail: string)
    requires i < 26
    ensures |SMALL| == |CAPITAL| == 26 && Snake("") == ""
    ensures Snake([CAPITAL[i]] + tail) == ['_', SMALL[i]] + Snake(tail)
    ensures c !in CAPITAL ==> Snake([c] + tail) == [c] + Snake(tail)
  {
    SmallLetters();
    CapitalLetters();
    SamePlace(SMALL, CAPITAL, i);
    SnakeSteps(CAPITAL[i], c, tail);
    LettersOf(SMALL, CAPITAL, c);
  }
}
