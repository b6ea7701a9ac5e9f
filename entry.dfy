/** A log entry (entry.go) and the values its fields hold. */
module Entries {
  import opened Levels

  /** A wall-clock instant (`time.Time`); the model never looks inside one. */
  type Time = int

  /** The instant Go's zero `time.Time` stands for. */
  const ZeroTime: Time := 0

  /** What an `interface{}` field value can be. `Nil` is Go's nil; `Object` is a
      nested `map[string]interface{}`; `Opaque` is any other Go value (a channel,
      a function, a struct), told apart only by identity. */
  datatype Value =
    | Nil
    | Str(s: string)
    | Int(i: int)
    | Bool(b: bool)
    | Object(members: map<string, Value>)
    | Opaque(id: nat)

  /** `map[string]interface{}`. A nil map and an empty map behave alike everywhere
      in the logger, so both are the empty map here. */
  type Fields = map<string, Value>

  /** Byte strings the logger writes. Bytes and text share one representation:
      the UTF-8 encoding between them is not modelled. */
  type Bytes = string

  datatype Entry = Entry(level: Level, timestamp: Time, message: string, fields: Fields)

  /** `&Entry{Message: m}`: every other field at its zero value. */
  function BareEntry(message: string): Entry
  {
    Entry(DEBUG, ZeroTime, message, map[])
  }
}
