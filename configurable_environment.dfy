/**
 * The part of Spring's `ConfigurableEnvironment` the id-type selection uses:
 * layered property sources searched in precedence order, of which only the
 * system-properties layer is written to.
 */
module ConfigurableEnvironment {

  import opened Common
  import opened MybatisPlus

  /** A property value: configured text, or an `IdType` object put there by code. */
  datatype PropertyValue = Text(text: string) | IdTypeValue(idType: IdType)

  /**
   * The property sources in precedence order: those ahead of the system
   * properties (command-line arguments, JNDI), the system properties, and
   * those behind them (environment variables, application configuration files).
   */
  datatype PropertySources = PropertySources(
    above: map<string, PropertyValue>,
    systemProperties: map<string, PropertyValue>,
    below: map<string, PropertyValue>)

  /** The value of the first source that defines `key`. */
  function Resolve(env: PropertySources, key: string): (v: Option<PropertyValue>)
    ensures v.None? <==> key !in env.above && key !in env.systemProperties && key !in env.below
  {
    if key in env.above then Some(env.above[key])
    else if key in env.systemProperties then Some(env.systemProperties[key])
    else if key in env.below then Some(env.below[key])
    else None
  }

  /** `getProperty(key)`: the value as a `String` (`null` when no source defines it). */
  function GetProperty(env: PropertySources, key: string): Option<string>
  {
    match Resolve(env, key)
    case None => None
    case Some(Text(s)) => Some(s)
    case Some(IdTypeValue(t)) => Some(IdTypeName(t))
  }

  /**
   * The outcome of `getProperty(key, IdType.class)`: `Missing` is a `null`
   * result, `NotConvertible` the conversion exception.
   */
  datatype IdTypeLookup = Missing | Found(idType: IdType) | NotConvertible

  /**
   * `getProperty(key, IdType.class)`: an `IdType` object is returned as it is;
   * a text is converted, the empty text to `null`, a constant's name to that
   * constant, and anything else fails the conversion.
   */
  function GetIdTypeProperty(env: PropertySources, key: string): (r: IdTypeLookup)
    ensures r == Missing <==> Resolve(env, key).None? || Resolve(env, key) == Some(Text(""))
    ensures forall t :: Resolve(env, key) == Some(IdTypeValue(t)) ==> r == Found(t)
    ensures Resolve(env, key).Some? && Resolve(env, key).value.Text? && Resolve(env, key).value.text != "" ==>
      r == (match IdTypeFromText(Resolve(env, key).value.text)
            case Some(t) => Found(t)
            case None => NotConvertible)
  {
    match Resolve(env, key)
    case None => Missing
    case Some(IdTypeValue(t)) => Found(t)
    case Some(Text(s)) =>
      if s == "" then Missing
      else
        match IdTypeFromText(s)
        case None => NotConvertible
        case Some(t) => Found(t)
  }

  /** The environment object, whose system-properties map is updated in place. */
  class Environment {
    var above: map<string, PropertyValue>
    var systemProperties: map<string, PropertyValue>
    var below: map<string, PropertyValue>

    constructor (above: map<string, PropertyValue>, systemProperties: map<string, PropertyValue>, below: map<string, PropertyValue>)
      ensures Sources() == PropertySources(above, systemProperties, below)
    {
      this.above := above;
      this.systemProperties := systemProperties;
      this.below := below;
    }

    function Sources(): PropertySources
      reads this
    {
      PropertySources(above, systemProperties, below)
    }

    /** `getSystemProperties().put(key, value)`. */
    method PutSystemProperty(key: string, value: PropertyValue)
      modifies this
      ensures Sources() == old(Sources()).(systemProperties := old(systemProperties)[key := value])
    {
      systemProperties := systemProperties[key := value];
    }
  }
}
