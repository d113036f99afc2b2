/** Small value types shared by the modules of this model. */
module Common {

  /** Java's nullable reference: `None` stands for `null`. */
  datatype Option<+T> = None | Some(value: T)

  /** A Java `long`. */
  newtype Long = x: int | -0x8000_0000_0000_0000 <= x < 0x8000_0000_0000_0000

  /** A Java `int` (the value of a non-null `java.lang.Integer`). */
  newtype Int32 = x: int | -0x8000_0000 <= x < 0x8000_0000

  const LONG_MIN: Long := -0x8000_0000_0000_0000

  /** Hutool's `StrUtil.isEmpty`: the string is `null` or has no characters. */
  predicate IsEmpty(s: Option<string>)
  {
    s.None? || s.value == ""
  }
}
