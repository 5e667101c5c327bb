/**
 * The validation rule for the password-length field of the form
 * (a yup schema in App.tsx: a number, at least 4, at most 16, required).
 */
module Schema {
  import opened Wrappers

  const MinLength: int := 4
  const MaxLength: int := 16

  /** The range the length must lie in before a password may be generated. */
  predicate ValidLength(n: int) {
    MinLength <= n <= MaxLength
  }

  /** Which of the three field rules a rejected length breaks. */
  datatype LengthError = Required | TooShort | TooLong

  /**
   * Validate the length field. `None` is an empty field (the form starts with
   * one); a present value fails `min` or `max`, never both.
   */
  function ValidateLength(field: Option<int>): (r: Result<int, LengthError>)
    ensures r.Ok? <==> field.Some? && ValidLength(field.value)
    ensures r.Ok? ==> r.value == field.value
    ensures r == Err(Required) <==> field.None?
    ensures r == Err(TooShort) <==> field.Some? && field.value < MinLength
    ensures r == Err(TooLong) <==> field.Some? && field.value > MaxLength
  {
    match field
    case None => Err(Required)
    case Some(n) =>
      if n < MinLength then Err(TooShort)
      else if n > MaxLength then Err(TooLong)
      else Ok(n)
  }
}
