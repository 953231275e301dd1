/** Go values as the analytics client sees them: byte strings, the dynamic
    `interface{}` values stored in property maps, and the maps themselves. */
module GoValues {

  /** A Go `int64`. */
  newtype i64 = x: int | -0x8000_0000_0000_0000 <= x < 0x8000_0000_0000_0000

  /** A Go `string` is a sequence of bytes; each byte is written as one
      character below 256, so `|s|` is Go's `len(s)`. */
  type GoString = s: string | forall i | 0 <= i < |s| :: s[i] as int < 256

  datatype Option<+T> = None | Some(value: T) {
    function GetOr(default: T): T {
      match this
      case Some(v) => v
      case None => default
    }
  }

  /** The dynamic type of a value held in an `interface{}`. `Int64` and `Int`
      are different dynamic types in Go (a type assertion `t.(int64)` fails on
      an `int`), although both are 64 bits wide on the platforms Go targets.
      `Other` stands for every further type (floats, nested maps, ...). */
  datatype Value =
    | Int64(i: i64)
    | Int(i: i64)
    | Bool(b: bool)
    | Str(s: GoString)
    | StrList(items: seq<GoString>)
    | Other

  /** The contents of a Go `map[string]interface{}`. */
  type Props = map<GoString, Value>

  /** A Go `map[string]interface{}` is a reference: a `PropertyMap?` that is
      `null` is the nil map, and writes through one reference are seen by
      every holder of it. */
  class PropertyMap {
    var entries: Props

    constructor (entries: Props)
      ensures this.entries == entries
    {
      this.entries := entries;
    }
  }

  /** What a possibly-nil map holds: `None` for the nil map. */
  function Contents(m: PropertyMap?): Option<Props>
    reads m
  {
    if m == null then None else Some(m.entries)
  }
}
