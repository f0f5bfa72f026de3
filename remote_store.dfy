/** The remote key-value store as the model sees it: values at paths, and
    the outcome the store gives one write. */
module RemoteStore {
  import opened Wrappers

  /** A stored value: a string, a whole number, or an object of named
      children. */
  datatype Value = Text(s: string) | Number(n: int) | Record(fields: map<string, Value>)

  /** What a listener receives and `getValue(T::class.java)` makes of it:
      no data (null), a value of the asked-for type, or data that cannot be
      converted to that type (the conversion throws). */
  datatype Snapshot<+T> = Missing | Holds(value: T) | Unconvertible

  /** What the store does with one write: accept it, or reject it with an
      exception whose message may be null. */
  datatype StoreFault = Accept | Reject(message: Option<string>)

  /** The string child `key` of an object, as the SDK would map it to a
      `String?` property. */
  function TextField(fields: map<string, Value>, key: string): Option<string>
  {
    if key in fields && fields[key].Text? then Some(fields[key].s) else None
  }

  /** The whole-number child `key` of an object, as a `Long?` property. */
  function NumberField(fields: map<string, Value>, key: string): Option<int>
  {
    if key in fields && fields[key].Number? then Some(fields[key].n) else None
  }
}
