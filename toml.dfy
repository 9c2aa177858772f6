/**
  The values a parsed TOML document is made of, as the configuration code
  sees them through Python's `dict`: strings, integers, floats, booleans,
  date-times, arrays and nested tables.
 */
module Toml {

  /** One TOML value. A float is carried as its IEEE 754 bit pattern and is
      never computed on; date-times are carried as their text. */
  datatype Value =
    | Str(s: string)
    | Int(i: int)
    | Float(bits: bv64)
    | Bool(b: bool)
    | DateTime(text: string)
    | Array(items: seq<Value>)
    | Table(t: map<string, Value>)

  /** A parsed document, or the contents of one table. */
  type Document = map<string, Value>

  /** The bit pattern of the float 0.0. */
  const FloatZero: bv64 := 0

  /** Python's `d.get(key, default)`. */
  function Get(d: Document, key: string, default: Value): Value
  {
    if key in d then d[key] else default
  }

  /** `{}`, the default the source passes for a missing section. */
  const EmptyTable: Value := Table(map[])
}
