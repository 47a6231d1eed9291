/** Roman numerals as the interval labels use them: the lower-case numeral of a
    scale degree, ASCII upper-casing, and the value a numeral reads back as. */
module RomanNumerals {

  /** The lower-case numeral for a scale degree index; indexes outside 0..7 get none. */
  function RomanNumeral(index: int): string {
    match index
    case 0 => "i"
    case 1 => "ii"
    case 2 => "iii"
    case 3 => "iv"
    case 4 => "v"
    case 5 => "vi"
    case 6 => "vii"
    case 7 => "viii"
    case _ => ""
  }

  function UpperChar(c: char): char {
    if 'a' <= c <= 'z' then (c as int - 32) as char else c
  }

  /** `String.uppercased()` on ASCII letters. */
  function Uppercased(s: string): (r: string)
    ensures |r| == |s|
    ensures forall i :: 0 <= i < |s| ==> r[i] == UpperChar(s[i])
  {
    if |s| == 0 then [] else [UpperChar(s[0])] + Uppercased(s[1..])
  }

  /** The value of a Roman numeral written with i, v and x in either case. */
  function LetterValue(c: char): nat {
    if c == 'i' || c == 'I' then 1
    else if c == 'v' || c == 'V' then 5
    else if c == 'x' || c == 'X' then 10
    else 0
  }

  function RomanValue(s: string): nat
    decreases |s|
  {
    if |s| == 0 then 0
    else if |s| >= 2 && LetterValue(s[0]) < LetterValue(s[1])
    then LetterValue(s[1]) - LetterValue(s[0]) + RomanValue(s[2..])
    else LetterValue(s[0]) + RomanValue(s[1..])
  }

  ghost predicate AllLower(s: string) { forall i :: 0 <= i < |s| ==> 'a' <= s[i] <= 'z' }
  ghost predicate AllUpper(s: string) { forall i :: 0 <= i < |s| ==> 'A' <= s[i] <= 'Z' }

  /** Upper-casing turns a lower-case word into an upper-case one. */
  lemma UppercasedIsUpper(s: string)
    requires AllLower(s)
    ensures AllUpper(Uppercased(s))
  {
  }

  /** A Roman numeral has the same value in either case. */
  lemma {:induction false} RomanValueIgnoresCase(s: string)
    ensures RomanValue(Uppercased(s)) == RomanValue(s)
    decreases |s|
  {
    if |s| > 0 {
      var u := Uppercased(s);
      assert LetterValue(u[0]) == LetterValue(s[0]);
      if |s| >= 2 {
        assert LetterValue(u[1]) == LetterValue(s[1]);
        assert u[2..] == Uppercased(s[2..]);
        RomanValueIgnoresCase(s[2..]);
      }
      assert u[1..] == Uppercased(s[1..]);
      RomanValueIgnoresCase(s[1..]);
    }
  }

  /** The numerals of the eight degrees are non-empty lower-case words. */
  lemma LowerNumeral(index: int)
    requires 0 <= index < 8
    ensures AllLower(RomanNumeral(index)) && |RomanNumeral(index)| > 0
  {
  }

  /** The numerals of the eight degrees read back as the one-based degree. */
  lemma NumeralReadsBack(index: int)
    requires 0 <= index < 8
    ensures RomanValue(RomanNumeral(index)) == index + 1
  {
    if index < 4 {
      LowNumeralsReadBack(index);
    } else {
      HighNumeralsReadBack(index);
    }
  }

  /** The numerals i to iv, which start with the letter i. */
  lemma LowNumeralsReadBack(index: int)
    requires 0 <= index < 4
    ensures RomanValue(RomanNumeral(index)) == index + 1
  {
    match index
    case 0 => assert RomanValue("i") == 1;
    case 1 => assert RomanValue("ii") == 2;
    case 2 => assert RomanValue("iii") == 3;
    case 3 => assert RomanValue("iv") == 4;
  }

  /** The numerals v to viii, which start with the letter v. */
  lemma HighNumeralsReadBack(index: int)
    requires 4 <= index < 8
    ensures RomanValue(RomanNumeral(index)) == index + 1
  {
    match index
    case 4 => assert RomanValue("v") == 5;
    case 5 => assert RomanValue("vi") == 6;
    case 6 => assert RomanValue("vii") == 7;
    case 7 => assert RomanValue("viii") == 8;
  }

  /** The numerals read back as the one-based degree, in lower and in upper case. */
  lemma NumeralValue(index: int)
    requires 0 <= index < 8
    ensures AllLower(RomanNumeral(index)) && |RomanNumeral(index)| > 0
    ensures AllUpper(Uppercased(RomanNumeral(index)))
    ensures RomanValue(RomanNumeral(index)) == index + 1
    ensures RomanValue(Uppercased(RomanNumeral(index))) == index + 1
  {
    LowerNumeral(index);
    NumeralReadsBack(index);
    UppercasedIsUpper(RomanNumeral(index));
    RomanValueIgnoresCase(RomanNumeral(index));
  }
}
