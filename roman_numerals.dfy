/**
  `romanNumeral(from:)` and `ParseError`, defined identically on the
  TransformingOperators and Operators pages: a five-entry lookup table that
  throws for every number it does not hold.
 */
module RomanNumerals {
  import opened Wrappers

  /** `struct ParseError: Error {}`. */
  datatype ParseError = ParseError

  /** `romanNumeralDict`. */
  const RomanNumeralDict: map<int, string> :=
    map[1 := "I", 2 := "II", 3 := "III", 4 := "IV", 5 := "V"]

  /** `try romanNumeral(from:)`: the table's numeral, or `ParseError` thrown
      for a number outside 1...5. */
  function RomanNumeral(from: int): (r: Result<string, ParseError>)
    ensures r.Success? <==> 1 <= from <= 5
    ensures r.Success? ==> r.value in RomanNumeralDict.Values
  {
    if from in RomanNumeralDict then Success(RomanNumeralDict[from]) else Failure(ParseError)
  }

  // ---------------------------------------------------------------------------
  // Reading a numeral back: the usual additive notation with subtraction
  // when a smaller symbol precedes a larger one.

  function SymbolValue(c: char): nat {
    match c
    case 'I' => 1
    case 'V' => 5
    case 'X' => 10
    case 'L' => 50
    case 'C' => 100
    case 'D' => 500
    case 'M' => 1000
    case _ => 0
  }

  function NumeralValue(s: string): int {
    if s == [] then 0
    else if |s| >= 2 && SymbolValue(s[0]) < SymbolValue(s[1]) then
      SymbolValue(s[1]) - SymbolValue(s[0]) + NumeralValue(s[2..])
    else
      SymbolValue(s[0]) + NumeralValue(s[1..])
  }

  /** Every numeral the table hands out reads back as the number asked for. */
  lemma RomanNumeralRoundTrip(n: int)
    requires 1 <= n <= 5
    ensures RomanNumeral(n).Success? && NumeralValue(RomanNumeral(n).value) == n
  {
  }

  /** Hence no two numbers share a numeral. */
  lemma RomanNumeralInjective(m: int, n: int)
    requires RomanNumeral(m).Success? && RomanNumeral(n).Success?
    requires RomanNumeral(m).value == RomanNumeral(n).value
    ensures m == n
  {
  }

  /** The table, entry by entry: 1...5 give "I", "II", "III", "IV", "V". */
  lemma RomanNumeralTable()
    ensures RomanNumeral(1) == Success("I")
    ensures RomanNumeral(2) == Success("II")
    ensures RomanNumeral(3) == Success("III")
    ensures RomanNumeral(4) == Success("IV")
    ensures RomanNumeral(5) == Success("V")
  {
  }

  /** The pages' own calls: 3 succeeds, 6 throws (the commented-out call)
      and 9 throws (the value fed to `tryMap`). */
  lemma PageCalls()
    ensures RomanNumeral(3) == Success("III")
    ensures RomanNumeral(6) == Failure(ParseError)
    ensures RomanNumeral(9) == Failure(ParseError)
  {
  }
}
