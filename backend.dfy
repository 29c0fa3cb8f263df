/** The structured logging backend (logrus) as the core sees it: a logger
    object with a current level, and the entries handed to it. */
module Backend {
  import opened Common
  import opened Levels

  /** A value stored under a field name (logrus.Fields holds
      `interface{}` values; these are the kinds the core stores). */
  datatype Value =
    | Text(s: string)           // a Go string
    | Bytes(b: seq<byte>)       // a Go string made from a byte slice
    | Number(n: int)            // a Go int
    | ErrorField(e: Option<Error>)  // a Go `error`, possibly nil

  /** One call into the backend: the level it was made at, its message
      and its structured fields. */
  datatype Entry = Entry(level: BackendLevel, message: string, fields: map<string, Value>)

  /** A `*logrus.Logger`. `entries` is every entry handed to it, in order;
      whether the backend then writes an entry is its own business. */
  class Logger {
    var level: BackendLevel
    var entries: seq<Entry>

    constructor (level: BackendLevel)
      ensures this.level == level && entries == []
    {
      this.level := level;
      entries := [];
    }

    /** Hand one entry to the backend. */
    method Log(e: Entry)
      modifies this
      ensures entries == old(entries) + [e] && level == old(level)
    {
      entries := entries + [e];
    }

    /** `logrus.SetLevel` on this logger. */
    method SetLevel(b: BackendLevel)
      modifies this
      ensures level == b && entries == old(entries)
    {
      level := b;
    }
  }
}
