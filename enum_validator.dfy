/**
 * The configuration validator that accepts exactly the names of an enum's
 * constants (`Enum.valueOf`, case-sensitive) and reports the allowed names.
 */
module EnumValidator {
  import opened Wrappers
  import opened Connect
  import Text

  /** The message of the `ConfigException` for an invalid value. */
  function InvalidValueMessage(constants: seq<string>, name: string, value: string): string {
    "Invalid value '" + value + "' for config key '" + name + "'; must be one of " + Text.ListToString(constants)
  }

  /** The message names the config key, the rejected value and every allowed constant. */
  lemma InvalidValueMessageMentions(constants: seq<string>, name: string, value: string)
    ensures Text.Contains(InvalidValueMessage(constants, name, value), name)
    ensures Text.Contains(InvalidValueMessage(constants, name, value), value)
    ensures forall k :: 0 <= k < |constants| ==> Text.Contains(InvalidValueMessage(constants, name, value), constants[k])
  {
    var m := InvalidValueMessage(constants, name, value);
    var tail := "'; must be one of " + Text.ListToString(constants);
    Text.ContainsMiddle("Invalid value '", value, "' for config key '" + name + tail);
    assert "Invalid value '" + value + ("' for config key '" + name + tail) == m;
    Text.ContainsMiddle("Invalid value '" + value + "' for config key '", name, tail);
    assert "Invalid value '" + value + "' for config key '" + name + tail == m;
    forall k | 0 <= k < |constants|
      ensures Text.Contains(m, constants[k])
    {
      Text.ListToStringContains(constants, k);
      Text.ContainsWithin(Text.ListToString(constants), constants[k],
                          "Invalid value '" + value + "' for config key '" + name + "'; must be one of ", "");
      assert "Invalid value '" + value + "' for config key '" + name + "'; must be one of "
             + Text.ListToString(constants) + "" == m;
    }
  }

  /**
   * `ensureValid(name, value)`: nothing is thrown when `value` is the name of a
   * constant; a `null` value throws `NullPointerException`; any other value a
   * `ConfigException` naming the key, the value and the allowed constants.
   */
  function EnsureValid(constants: seq<string>, name: string, value: Option<string>): (thrown: Option<Exception>)
    ensures thrown.None? <==> value.Some? && value.value in constants
    ensures value.None? ==> thrown == Some(NullPointerException)
    ensures value.Some? && value.value !in constants ==>
              && thrown.Some? && thrown.value.ConfigException?
              && Text.Contains(thrown.value.message, name)
              && Text.Contains(thrown.value.message, value.value)
              && (forall k :: 0 <= k < |constants| ==> Text.Contains(thrown.value.message, constants[k]))
  {
    match value
    case None => Some(NullPointerException)
    case Some(v) =>
      if v in constants then None
      else
        InvalidValueMessageMentions(constants, name, v);
        Some(ConfigException(InvalidValueMessage(constants, name, v)))
  }

  /** `toString`: "One of " followed by the list of allowed constants. */
  function ToString(constants: seq<string>): (s: string)
    ensures "One of [" <= s
    ensures forall k :: 0 <= k < |constants| ==> Text.Contains(s, constants[k])
  {
    var s := "One of " + Text.ListToString(constants);
    forall k | 0 <= k < |constants|
      ensures Text.Contains(s, constants[k])
    {
      Text.ListToStringContains(constants, k);
      Text.ContainsWithin(Text.ListToString(constants), constants[k], "One of ", "");
      assert "One of " + Text.ListToString(constants) + "" == s;
    }
    s
  }
}
