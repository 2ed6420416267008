/**
 * The parsed form of a JSON request body, as far as the handlers look at it.
 * Parsing itself is a foreign call: a handler receives either `None` (the parse
 * raised) or the top-level field map. A body that parses to something other
 * than an object behaves like the empty map, because `contains` is false on it.
 */
module Json {

  /** A field value: a string, an integer, or anything else (null, bool, float, array, object). */
  datatype Value = Str(s: string) | Num(n: int) | Other

  type Object = map<string, Value>

  /** The field is present but converting it to `std::string` raises a type error. */
  predicate NotString(o: Object, key: string)
  {
    key in o && !o[key].Str?
  }

  /** The string a conditional write leaves in a field that held `current`. */
  function Overwrite(o: Object, key: string, current: string): (r: string)
    ensures key !in o ==> r == current
    ensures key in o && o[key].Str? ==> r == o[key].s
    ensures NotString(o, key) ==> r == current
  {
    if key in o && o[key].Str? then o[key].s else current
  }
}
