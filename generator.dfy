/**
 * The password generator of App.tsx: the alphabet built from the four
 * character-class flags, JavaScript's `charAt`, the rounding that turns a
 * random draw into an index, and the sampling loop.
 *
 * Randomness is abstracted: the sampler is given the sequence of indices
 * that `Math.round(Math.random() * n)` produced, one per pass.
 */
module Generator {

  // ---------------------------------------------------------------------------
  // Character classes and the alphabet
  // ---------------------------------------------------------------------------

  const LowerCaseChars: string := "abcdefghijklmnopqrstuvwxyz"
  /** As in App.tsx: 25 letters, `Z` is missing. */
  const UpperCaseChars: string := "ABCDEFGHIJKLMNOPQRSTUVWXY"
  const DigitChars: string := "0123456789"
  const SpecialChars: string := "~`!@#$%^&*()-_+={}[]|/:;\"<>,.?"

  /** Length of a class string when its flag is on, else 0. */
  function Weight(on: bool, n: nat): nat {
    if on then n else 0
  }

  /**
   * The alphabet: the enabled class strings concatenated in the fixed order
   * lower, upper, digit, symbol.
   */
  function CharacterList(lowerCase: bool, upperCase: bool, numbers: bool, symbols: bool): string {
    (if lowerCase then LowerCaseChars else "")
    + (if upperCase then UpperCaseChars else "")
    + (if numbers then DigitChars else "")
    + (if symbols then SpecialChars else "")
  }

  /** A character is in a class that is switched on. */
  predicate InSelectedClass(c: char, lowerCase: bool, upperCase: bool, numbers: bool, symbols: bool) {
    (lowerCase && c in LowerCaseChars) || (upperCase && c in UpperCaseChars)
    || (numbers && c in DigitChars) || (symbols && c in SpecialChars)
  }

  /** A character is in a class that is switched off. */
  predicate InUnselectedClass(c: char, lowerCase: bool, upperCase: bool, numbers: bool, symbols: bool) {
    (!lowerCase && c in LowerCaseChars) || (!upperCase && c in UpperCaseChars)
    || (!numbers && c in DigitChars) || (!symbols && c in SpecialChars)
  }

  lemma ClassSizes()
    ensures |LowerCaseChars| == 26 && |UpperCaseChars| == 25
    ensures |DigitChars| == 10 && |SpecialChars| == 30
    ensures 'Z' !in UpperCaseChars
  {
  }

  lemma LowerCaseRange(c: char)
    ensures c in LowerCaseChars ==> 'a' <= c <= 'z'
  {
  }

  lemma UpperCaseRange(c: char)
    ensures c in UpperCaseChars ==> 'A' <= c <= 'Y'
  {
  }

  lemma DigitRange(c: char)
    ensures c in DigitChars ==> '0' <= c <= '9'
  {
  }

  lemma SpecialOutsideRanges(c: char)
    ensures c in SpecialChars ==> !('0' <= c <= '9') && !('A' <= c <= 'Z') && !('a' <= c <= 'z')
  {
  }

  /** The four class strings share no character. */
  lemma ClassesDisjoint(c: char)
    ensures c in LowerCaseChars ==> c !in UpperCaseChars && c !in DigitChars && c !in SpecialChars
    ensures c in UpperCaseChars ==> c !in DigitChars && c !in SpecialChars
    ensures c in DigitChars ==> c !in SpecialChars
  {
    LowerCaseRange(c);
    UpperCaseRange(c);
    DigitRange(c);
    SpecialOutsideRanges(c);
  }

  lemma CharacterListLength(lowerCase: bool, upperCase: bool, numbers: bool, symbols: bool)
    ensures |CharacterList(lowerCase, upperCase, numbers, symbols)|
         == Weight(lowerCase, 26) + Weight(upperCase, 25) + Weight(numbers, 10) + Weight(symbols, 30)
  {
  }

  /** The alphabet holds exactly the characters of the enabled classes. */
  lemma CharacterListMembership(lowerCase: bool, upperCase: bool, numbers: bool, symbols: bool, c: char)
    ensures c in CharacterList(lowerCase, upperCase, numbers, symbols)
        <==> InSelectedClass(c, lowerCase, upperCase, numbers, symbols)
  {
  }

  /** The alphabet is empty exactly when every flag is off. */
  lemma CharacterListEmpty(lowerCase: bool, upperCase: bool, numbers: bool, symbols: bool)
    ensures CharacterList(lowerCase, upperCase, numbers, symbols) == ""
        <==> !lowerCase && !upperCase && !numbers && !symbols
  {
  }

  // ---------------------------------------------------------------------------
  // charAt and the rounded random index
  // ---------------------------------------------------------------------------

  /**
   * `String.prototype.charAt` at an integer position: the one-character
   * string at `pos`, or the empty string when `pos` is out of range.
   */
  function CharAt(s: string, pos: int): (r: string)
    ensures |r| <= 1
    ensures r == "" <==> !(0 <= pos < |s|)
    ensures r != "" ==> r[0] == s[pos]
    ensures forall c :: c in r ==> c in s
  {
    if 0 <= pos < |s| then [s[pos]] else ""
  }

  /**
   * `Math.round(x * n)` for a draw `x = numer / denom` in [0, 1), in exact
   * arithmetic: `Math.round` rounds halves up, so it is floor(x * n + 1/2).
   */
  function RoundedIndex(numer: nat, denom: nat, n: nat): int
    requires numer < denom
  {
    (2 * numer * n + denom) / (2 * denom)
  }

  lemma DivBelow(x: nat, y: nat, m: nat)
    requires y > 0 && x < y * m
    ensures x / y < m
  {
  }

  lemma MulDivCancel(d: nat, n: nat)
    requires d > 0
    ensures (d * n) / d == n
  {
    var q, r := (d * n) / d, (d * n) % d;
    assert d * n == d * q + r && 0 <= r < d;
    assert d * (n - q) == r;
    // d * (n - q) lies in [0, d), which only n - q == 0 allows
    if n - q >= 1 {
      assert false;
    } else if n - q <= -1 {
      assert false;
    }
  }

  /** The rounded index lies in [0, n], both ends included. */
  lemma RoundedIndexInRange(numer: nat, denom: nat, n: nat)
    requires numer < denom
    ensures 0 <= RoundedIndex(numer, denom, n) <= n
  {
    assert numer * n <= (denom - 1) * n;
    assert 2 * numer * n + denom < (2 * denom) * (n + 1);
    DivBelow(2 * numer * n + denom, 2 * denom, n + 1);
  }

  /** The upper end n is reached (for n > 0), so the index can be off the end. */
  lemma RoundedIndexReachesLength(n: nat)
    requires n > 0
    ensures RoundedIndex(2 * n - 1, 2 * n, n) == n
  {
    assert 2 * (2 * n - 1) * n + 2 * n == (4 * n) * n;
    MulDivCancel(4 * n, n);
  }

  // ---------------------------------------------------------------------------
  // The sampler
  // ---------------------------------------------------------------------------

  /** Every index is one the rounded draw can produce for an alphabet of length n. */
  predicate DrawnIndices(indices: seq<int>, n: nat) {
    forall k :: 0 <= k < |indices| ==> 0 <= indices[k] <= n
  }

  /** The result of appending `charAt` for each index in turn, starting from "". */
  function Sample(characters: string, indices: seq<int>): string
    decreases |indices|
  {
    if indices == [] then ""
    else Sample(characters, indices[..|indices| - 1]) + CharAt(characters, indices[|indices| - 1])
  }

  /** How many indices fall outside [0, |characters|). */
  function OutOfRange(characters: string, indices: seq<int>): nat
    decreases |indices|
  {
    if indices == [] then 0
    else
      var last := if 0 <= indices[|indices| - 1] < |characters| then 0 else 1;
      OutOfRange(characters, indices[..|indices| - 1]) + last
  }

  /** Each out-of-range index costs exactly one character of the result. */
  lemma {:induction false} SampleLength(characters: string, indices: seq<int>)
    ensures |Sample(characters, indices)| + OutOfRange(characters, indices) == |indices|
    decreases |indices|
  {
    if indices != [] {
      SampleLength(characters, indices[..|indices| - 1]);
    }
  }

  lemma {:induction false} OutOfRangeZero(characters: string, indices: seq<int>)
    ensures OutOfRange(characters, indices) == 0
        <==> forall k :: 0 <= k < |indices| ==> 0 <= indices[k] < |characters|
    decreases |indices|
  {
    if indices != [] {
      var init := indices[..|indices| - 1];
      OutOfRangeZero(characters, init);
      assert forall k :: 0 <= k < |init| ==> init[k] == indices[k];
    }
  }

  /**
   * The result is at most `|indices|` long, and exactly that long when every
   * drawn index is below the alphabet's length.
   */
  lemma SampleFullLength(characters: string, indices: seq<int>)
    requires DrawnIndices(indices, |characters|)
    ensures |Sample(characters, indices)| <= |indices|
    ensures |Sample(characters, indices)| == |indices|
        <==> forall k :: 0 <= k < |indices| ==> indices[k] < |characters|
  {
    SampleLength(characters, indices);
    OutOfRangeZero(characters, indices);
  }

  /** Every character of the result is a character of the alphabet. */
  lemma {:induction false} SampleMembership(characters: string, indices: seq<int>)
    ensures forall c :: c in Sample(characters, indices) ==> c in characters
    decreases |indices|
  {
    if indices != [] {
      SampleMembership(characters, indices[..|indices| - 1]);
    }
  }

  /** With an empty alphabet the result is "" whatever was drawn. */
  lemma {:induction false} SampleEmptyAlphabet(indices: seq<int>)
    ensures Sample("", indices) == ""
    decreases |indices|
  {
    if indices != [] {
      SampleEmptyAlphabet(indices[..|indices| - 1]);
    }
  }

  /**
   * A draw that rounds up to the alphabet's length shortens the password by
   * one character, so a password shorter than requested is possible.
   */
  lemma BoundaryDrawShortens(characters: string, indices: seq<int>, k: nat)
    requires DrawnIndices(indices, |characters|)
    requires k < |indices| && indices[k] == |characters|
    ensures |Sample(characters, indices)| < |indices|
  {
    SampleFullLength(characters, indices);
  }

  /**
   * The password generated from given flags holds only characters of the
   * enabled classes and none of a disabled class.
   */
  lemma PasswordFromSelectedClasses(lowerCase: bool, upperCase: bool, numbers: bool, symbols: bool,
                                    indices: seq<int>, c: char)
    requires c in Sample(CharacterList(lowerCase, upperCase, numbers, symbols), indices)
    ensures InSelectedClass(c, lowerCase, upperCase, numbers, symbols)
    ensures !InUnselectedClass(c, lowerCase, upperCase, numbers, symbols)
  {
    SampleMembership(CharacterList(lowerCase, upperCase, numbers, symbols), indices);
    CharacterListMembership(lowerCase, upperCase, numbers, symbols, c);
    ClassesDisjoint(c);
  }

  /** Digits only and six in-range draws give six characters from `0` to `9`. */
  lemma DigitsOnlyExample(indices: seq<int>)
    requires |indices| == 6
    requires forall k :: 0 <= k < 6 ==> 0 <= indices[k] < 10
    ensures |Sample(CharacterList(false, false, true, false), indices)| == 6
    ensures forall c :: c in Sample(CharacterList(false, false, true, false), indices) ==> '0' <= c <= '9'
  {
    var digits := CharacterList(false, false, true, false);
    assert digits == DigitChars;
    SampleFullLength(digits, indices);
    SampleMembership(digits, indices);
  }

  /**
   * `createPassword`: `passwordLength` passes, each appending `charAt` of the
   * alphabet at the index drawn for that pass.
   */
  method CreatePassword(charactors: string, passwordLength: nat, indices: seq<int>) returns (results: string)
    requires |indices| == passwordLength
    requires DrawnIndices(indices, |charactors|)
    ensures results == Sample(charactors, indices)
  {
    results := "";
    for i := 0 to passwordLength
      invariant results == Sample(charactors, indices[..i])
    {
      var randomIndex := indices[i];
      assert indices[..i + 1][..i] == indices[..i];
      results := results + CharAt(charactors, randomIndex);
    }
    assert indices[..passwordLength] == indices;
  }
}
