/** The values the coordinator passes around: decoded device readings and
    local wall-clock timestamps. */
module Readings {

  datatype Option<+T> = None | Some(value: T)

  /** One JSON value other than an object, as the decoder yields it. A
      JSON number with a fraction is kept as the exact decimal the device
      sent; binary floating-point rounding is not modelled. Values compare
      structurally: `Float(0.0)` and `Int(0)` are different values here,
      although Python's `==` calls them equal. */
  datatype Value = Int(n: int) | Float(x: real) | Text(s: string) | Bool(b: bool) | Null | Array(items: seq<Value>)

  /** The integer 0 written into every zeroed field of a substitute reading. */
  const Zero: Value := Int(0)

  /** A decoded status object: field name to value. */
  type Reading = map<string, Value>

  const SecondsPerDay: int := 86400

  /** An instant on the local wall clock, in seconds since the local epoch
      midnight. */
  datatype Timestamp = Timestamp(localSeconds: int)

  /** The local calendar date of an instant (`datetime.date()`), as a day
      number: the day whose 86400 seconds contain the instant. */
  function DayOf(t: Timestamp): (day: int)
    ensures day * SecondsPerDay <= t.localSeconds < day * SecondsPerDay + SecondsPerDay
  {
    t.localSeconds / SecondsPerDay
  }
}
