/**
 * Jackson serializer registered for `Long` and `long`: values JavaScript can
 * hold exactly are written as JSON numbers, all others as JSON strings.
 */
module NumberSerializer {

  import opened Common
  import DecimalText

  /** JavaScript's `Number.MAX_SAFE_INTEGER`, 2^53 - 1. */
  const MAX_SAFE_INTEGER: Long := 9007199254740991
  /** JavaScript's `Number.MIN_SAFE_INTEGER`, -(2^53 - 1). */
  const MIN_SAFE_INTEGER: Long := -9007199254740991

  /** The one token a call writes to the `JsonGenerator`. */
  datatype JsonToken = JsonNumber(number: int) | JsonString(text: string)

  /** Both comparisons are strict, so the two bounds themselves are not "safe". */
  predicate InSafeRange(v: int)
  {
    MIN_SAFE_INTEGER as int < v < MAX_SAFE_INTEGER as int
  }

  /**
   * `serialize(value, gen, provider)`: the superclass writes the number, or
   * `gen.writeString(value.toString())` writes its decimal text.
   */
  function Serialize(value: Long): (token: JsonToken)
    ensures token.JsonNumber? <==> InSafeRange(value as int)
    ensures token.JsonNumber? ==> token.number == value as int
    ensures token.JsonString? ==> DecimalText.ParseInt(token.text) == Some(value as int)
  {
    if value > MIN_SAFE_INTEGER && value < MAX_SAFE_INTEGER then
      JsonNumber(value as int)
    else
      DecimalText.IntTextRoundTrip(value as int);
      JsonString(DecimalText.IntToText(value as int))
  }

  /** The string branch writes exactly `Long.toString` of the value. */
  lemma StringBranchIsDecimalText(value: Long)
    requires !InSafeRange(value as int)
    ensures Serialize(value) == JsonString(DecimalText.IntToText(value as int))
  {
  }

  /** The bounds and everything past them are written as strings. */
  lemma BoundsAreStrings()
    ensures Serialize(MAX_SAFE_INTEGER).JsonString?
    ensures Serialize(MIN_SAFE_INTEGER).JsonString?
    ensures Serialize(MAX_SAFE_INTEGER - 1) == JsonNumber(9007199254740990)
    ensures Serialize(MIN_SAFE_INTEGER + 1) == JsonNumber(-9007199254740990)
  {
  }

  /** The number-or-string choice does not depend on the sign (`Long.MIN_VALUE` has no negation). */
  lemma ChoiceSymmetricUnderNegation(value: Long)
    requires value != LONG_MIN
    ensures Serialize(-value).JsonNumber? == Serialize(value).JsonNumber?
  {
  }

  /**
   * The start-up check writes -9007199254740992 (one below the safe range)
   * and reads back the same value from the string it wrote.
   */
  lemma StartupValueRoundTrips()
    ensures Serialize(-9007199254740992).JsonString?
    ensures DecimalText.ParseInt(Serialize(-9007199254740992).text) == Some(-9007199254740992)
  {
  }
}
