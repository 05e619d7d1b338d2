/** How the engine reads and writes square names: a row letter 'A'..'J'
    followed by a 1-based column number ("C4"). */
module Coordinates {

  /** The row letters in board order, as the engine's `letters` list holds them. */
  const Letters: seq<char> := ['A', 'B', 'C', 'D', 'E', 'F', 'G', 'H', 'I', 'J']

  /** `s.index(c)`: the first position of `c` in `s`. */
  function IndexOf(s: seq<char>, c: char): (i: nat)
    requires c in s
    ensures i < |s| && s[i] == c
    ensures forall j :: 0 <= j < i ==> s[j] != c
  {
    if s[0] == c then 0 else 1 + IndexOf(s[1..], c)
  }

  predicate IsRowLetter(c: char) {
    'A' <= c <= 'J'
  }

  /** The 0-based board row named by a row letter. */
  function RowIndex(letter: char): (row: nat)
    requires IsRowLetter(letter)
    ensures row < |Letters| && Letters[row] == letter
  {
    (letter - 'A') as nat
  }

  /** The row letters are exactly the letters in `Letters`, and a letter's row
      is the position `Letters.index` finds for it. */
  lemma RowIndexIsLettersIndex(letter: char)
    ensures IsRowLetter(letter) <==> letter in Letters
    ensures IsRowLetter(letter) ==> RowIndex(letter) == IndexOf(Letters, letter)
  {
    assert forall k :: 0 <= k < |Letters| ==> Letters[k] as int == 'A' as int + k;
    if letter in Letters {
      var i := IndexOf(Letters, letter);
      assert Letters[i] as int == 'A' as int + i;
    }
  }

  predicate IsDigit(c: char) {
    '0' <= c <= '9'
  }

  function DigitValue(c: char): nat
    requires IsDigit(c)
  {
    (c - '0') as nat
  }

  function DigitChar(d: nat): char
    requires d < 10
  {
    ('0' as int + d) as char
  }

  /** A coordinate whose second character `int()` accepts. */
  predicate HasDigit(coordinates: string) {
    |coordinates| >= 2 && IsDigit(coordinates[1])
  }

  /** A head coordinate the row check can read: a row letter, then a digit
      1-9. The digit '0' would give column -1. */
  predicate IsRowHead(coordinates: string) {
    |coordinates| >= 2 && IsRowLetter(coordinates[0]) && '1' <= coordinates[1] <= '9'
  }

  /** `int(coordinates[1]) - 1`: only the second character is read, so
      "A10" names column 0. */
  function HeadColumn(coordinates: string): (column: nat)
    requires IsRowHead(coordinates)
    ensures column < 9
  {
    DigitValue(coordinates[1]) - 1
  }

  predicate AllDigits(s: string) {
    forall i :: 0 <= i < |s| ==> IsDigit(s[i])
  }

  /** `str(n)` for a natural number: its decimal digits, most significant first. */
  function NatToString(n: nat): (s: string)
    ensures |s| >= 1 && AllDigits(s)
  {
    if n < 10 then [DigitChar(n)] else NatToString(n / 10) + [DigitChar(n % 10)]
  }

  /** `int(s)` for a string of decimal digits. */
  function ParseDecimal(s: string): nat
    requires AllDigits(s)
  {
    if s == [] then 0 else 10 * ParseDecimal(s[..|s| - 1]) + DigitValue(s[|s| - 1])
  }

  lemma {:induction false} ParseNatToString(n: nat)
    ensures ParseDecimal(NatToString(n)) == n
  {
    var s := NatToString(n);
    if n >= 10 {
      assert s[..|s| - 1] == NatToString(n / 10);
      ParseNatToString(n / 10);
    }
  }

  /** The name `row + str(column + 1)` that placement records for a square. */
  function SquareName(letter: char, column: nat): string {
    [letter] + NatToString(column + 1)
  }

  /** The names of `length` squares of one row, from `column` rightwards. */
  function RunNames(letter: char, column: nat, length: nat): seq<string> {
    seq(length, i requires 0 <= i < length => SquareName(letter, column + i))
  }

  /** Each recorded name is the row letter followed by the 1-based column
      number of its square; the numbers increase by one from `column + 1`,
      so the names are pairwise distinct. */
  lemma RunNamesNameTheRun(letter: char, column: nat, length: nat)
    ensures |RunNames(letter, column, length)| == length
    ensures forall i :: 0 <= i < length ==>
      var name := RunNames(letter, column, length)[i];
      |name| >= 2 && name[0] == letter && AllDigits(name[1..]) && ParseDecimal(name[1..]) == column + i + 1
    ensures forall i, j :: 0 <= i < j < length ==>
      RunNames(letter, column, length)[i] != RunNames(letter, column, length)[j]
  {
    var names := RunNames(letter, column, length);
    forall i | 0 <= i < length
      ensures var name := names[i];
        |name| >= 2 && name[0] == letter && AllDigits(name[1..]) && ParseDecimal(name[1..]) == column + i + 1
    {
      assert names[i] == SquareName(letter, column + i);
      assert names[i][1..] == NatToString(column + i + 1);
      ParseNatToString(column + i + 1);
    }
    forall i, j | 0 <= i < j < length
      ensures names[i] != names[j]
    {
      assert names[i] == SquareName(letter, column + i);
      assert names[j] == SquareName(letter, column + j);
      assert names[i][1..] == NatToString(column + i + 1);
      assert names[j][1..] == NatToString(column + j + 1);
      ParseNatToString(column + i + 1);
      ParseNatToString(column + j + 1);
    }
  }

  /** A recorded name for one of the first nine columns reads back, through
      the engine's own parsing, as the square it names. */
  lemma SquareNameReadsBack(letter: char, column: nat)
    requires IsRowLetter(letter) && column < 9
    ensures IsRowHead(SquareName(letter, column))
    ensures RowIndex(SquareName(letter, column)[0]) == RowIndex(letter)
    ensures HeadColumn(SquareName(letter, column)) == column
  {
  }

  /** The name recorded for the tenth column, "A10" say, reads back as the
      first column, because only one digit is read. */
  lemma TenthColumnReadsAsFirst(letter: char)
    requires IsRowLetter(letter)
    ensures SquareName(letter, 9) == [letter, '1', '0']
    ensures HeadColumn(SquareName(letter, 9)) == 0
  {
  }
}
