/**
 * The abstract view of a parsed configuration value (`toml::Value`). Only the
 * three accessors the scenario reader uses are modelled: lookup by key,
 * reading a string and reading an array.
 */
module TomlValue {
  import opened Wrappers

  datatype Value =
    | Str(text: string)
    | Int(number: int)
    | Array(items: seq<Value>)
    | Table(entries: map<string, Value>)
  {
    /** `value.get(key)`: only a table has keys; every other value yields nothing. */
    function Get(key: string): Option<Value> {
      if Table? && key in entries then Some(entries[key]) else None
    }

    /** `value.as_str()`. */
    function AsStr(): Option<string> {
      if Str? then Some(text) else None
    }

    /** `value.as_array()`. */
    function AsArray(): Option<seq<Value>> {
      if Array? then Some(items) else None
    }

    /** `value.get(key)` followed by `as_array()`: an array stored under `key`. */
    function GetArray(key: string): Option<seq<Value>> {
      match Get(key)
      case None => None
      case Some(v) => v.AsArray()
    }
  }
}
