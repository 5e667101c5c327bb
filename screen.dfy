/**
 * The screen's six state cells and the handlers that change them: generate,
 * reset and the four checkbox toggles. React's state setters are modelled as
 * immediate assignments to fields.
 */
module Screen {
  import opened Wrappers
  import opened Schema
  import opened Generator

  class PasswordScreen {
    var password: string
    var isPassGenerated: bool
    var lowerCase: bool
    var upperCase: bool
    var numbers: bool
    var symbols: bool

    /** The initial `useState` values: no password, lower case on, the rest off. */
    constructor ()
      ensures password == "" && !isPassGenerated
      ensures lowerCase && !upperCase && !numbers && !symbols
    {
      password := "";
      isPassGenerated := false;
      lowerCase := true;
      upperCase := false;
      numbers := false;
      symbols := false;
    }

    /** The alphabet the current flags select. */
    function Alphabet(): string
      reads this
    {
      CharacterList(lowerCase, upperCase, numbers, symbols)
    }

    /**
     * `generatePasswordString`: build the alphabet from the flags, sample
     * `passwordLength` characters with the drawn indices, store the result
     * and mark the password as generated. The flags are left as they were.
     */
    method GeneratePasswordString(passwordLength: int, indices: seq<int>)
      requires ValidLength(passwordLength)
      requires |indices| == passwordLength
      requires DrawnIndices(indices, |Alphabet()|)
      modifies this
      ensures password == Sample(old(Alphabet()), indices)
      ensures isPassGenerated
      ensures lowerCase == old(lowerCase) && upperCase == old(upperCase)
      ensures numbers == old(numbers) && symbols == old(symbols)
    {
      var characterList := "";
      if lowerCase {
        characterList := characterList + LowerCaseChars;
      }
      assert characterList == if lowerCase then LowerCaseChars else "";
      if upperCase {
        characterList := characterList + UpperCaseChars;
      }
      ghost var lowerUpper := characterList;
      assert lowerUpper == (if lowerCase then LowerCaseChars else "") + (if upperCase then UpperCaseChars else "");
      if numbers {
        characterList := characterList + DigitChars;
      }
      ghost var withDigits := characterList;
      assert withDigits == lowerUpper + if numbers then DigitChars else "";
      if symbols {
        characterList := characterList + SpecialChars;
      }
      assert characterList == withDigits + if symbols then SpecialChars else "";
      assert characterList == Alphabet();
      var passwordResult := CreatePassword(characterList, passwordLength, indices);
      password := passwordResult;
      isPassGenerated := true;
    }

    /**
     * Pressing "Generate Password": the form validates the length field and
     * calls the generator only when it is valid; otherwise nothing changes.
     */
    method Submit(passwordLength: Option<int>, indices: seq<int>) returns (generated: bool)
      requires passwordLength.Some? && ValidLength(passwordLength.value) ==>
                 |indices| == passwordLength.value && DrawnIndices(indices, |Alphabet()|)
      modifies this
      ensures generated <==> ValidateLength(passwordLength).Ok?
      ensures generated ==> password == Sample(old(Alphabet()), indices) && isPassGenerated
      ensures !generated ==> password == old(password) && isPassGenerated == old(isPassGenerated)
      ensures lowerCase == old(lowerCase) && upperCase == old(upperCase)
      ensures numbers == old(numbers) && symbols == old(symbols)
    {
      match ValidateLength(passwordLength)
      case Ok(n) =>
        GeneratePasswordString(n, indices);
        generated := true;
      case Err(_) =>
        generated := false;
    }

    /** `resetPasswordState`: back to the initial state. */
    method ResetPasswordState()
      modifies this
      ensures password == "" && !isPassGenerated
      ensures lowerCase && !upperCase && !numbers && !symbols
    {
      password := "";
      isPassGenerated := false;
      lowerCase := true;
      upperCase := false;
      numbers := false;
      symbols := false;
    }

    method ToggleLowerCase()
      modifies this
      ensures lowerCase == !old(lowerCase)
      ensures upperCase == old(upperCase) && numbers == old(numbers) && symbols == old(symbols)
      ensures password == old(password) && isPassGenerated == old(isPassGenerated)
    {
      lowerCase := !lowerCase;
    }

    method ToggleUpperCase()
      modifies this
      ensures upperCase == !old(upperCase)
      ensures lowerCase == old(lowerCase) && numbers == old(numbers) && symbols == old(symbols)
      ensures password == old(password) && isPassGenerated == old(isPassGenerated)
    {
      upperCase := !upperCase;
    }

    method ToggleNumbers()
      modifies this
      ensures numbers == !old(numbers)
      ensures lowerCase == old(lowerCase) && upperCase == old(upperCase) && symbols == old(symbols)
      ensures password == old(password) && isPassGenerated == old(isPassGenerated)
    {
      numbers := !numbers;
    }

    method ToggleSymbols()
      modifies this
      ensures symbols == !old(symbols)
      ensures lowerCase == old(lowerCase) && upperCase == old(upperCase) && numbers == old(numbers)
      ensures password == old(password) && isPassGenerated == old(isPassGenerated)
    {
      symbols := !symbols;
    }
  }

  /**
   * A usage example of the contracts above, not a function of App.tsx: from
   * the constructor's initial flags, a valid `Submit` with in-range draws
   * gives that many lower-case letters, a rejected `Submit` changes nothing,
   * and a reset clears the password again.
   */
  method GenerateAndReset(indices: seq<int>)
    requires |indices| == 8
    requires forall k :: 0 <= k < 8 ==> 0 <= indices[k] < 26
  {
    var screen := new PasswordScreen();
    assert screen.Alphabet() == LowerCaseChars;
    var generated := screen.Submit(Some(8), indices);
    assert generated && screen.isPassGenerated;
    SampleFullLength(LowerCaseChars, indices);
    SampleMembership(LowerCaseChars, indices);
    assert |screen.password| == 8;
    assert forall c :: c in screen.password ==> c in LowerCaseChars;
    generated := screen.Submit(Some(17), indices);
    assert !generated && |screen.password| == 8;
    screen.ResetPasswordState();
    assert screen.password == "" && !screen.isPassGenerated && screen.Alphabet() == LowerCaseChars;
  }
}
