/**
 * Jackson serializer for `String` values that, when XSS filtering is
 * enabled, writes the cleaned text instead of the original.
 */
module XssStringJsonSerializer {

  import opened Common

  /** The `yudao.xss` configuration; only its `enable` switch is read here. */
  datatype XssProperties = XssProperties(enable: bool)

  /**
   * What one `serialize` call does: the text given to `writeString`, if any,
   * and the inputs handed to the cleaner, in call order.
   */
  datatype Serialized = Serialized(written: Option<string>, cleanerInputs: seq<string>)

  /**
   * `serialize(value, gen, provider)` with the cleaner `clean` (`XssCleaner.clean`,
   * whose rules are not part of this model).
   */
  function Serialize(value: Option<string>, properties: XssProperties, clean: string -> string): (out: Serialized)
    ensures out.written.Some? <==> value.Some?
    ensures value.Some? && !properties.enable ==> out.written.value == value.value
    ensures value.Some? && properties.enable ==> out.written.value == clean(value.value)
    ensures |out.cleanerInputs| <= 1
    ensures out.cleanerInputs != [] <==> value.Some? && properties.enable
    ensures out.cleanerInputs != [] ==> out.cleanerInputs == [value.value]
  {
    match value
    case None => Serialized(None, [])
    case Some(text) =>
      if properties.enable then Serialized(Some(clean(text)), [text])
      else Serialized(Some(text), [])
  }

  /** With filtering disabled the cleaner is never consulted, so any two cleaners give the same output. */
  lemma DisabledIgnoresCleaner(value: Option<string>, clean1: string -> string, clean2: string -> string)
    ensures Serialize(value, XssProperties(false), clean1) == Serialize(value, XssProperties(false), clean2)
  {
  }

  /** Cleaning is the only difference between the two settings: with an identity cleaner both write the same text. */
  lemma EnabledWithIdentityCleanerWritesVerbatim(value: Option<string>)
    ensures Serialize(value, XssProperties(true), s => s).written == Serialize(value, XssProperties(false), s => s).written
  {
  }
}
