/** The two level enumerations the adapter translates between, and the
    two partial translations (broadcast/logger.go:27-42 and 52-65). */
module Levels {
  import opened Common

  /** The `log.Lvl` (a `uint8`) values with no exported name: DEBUG to OFF
      are 1 to 5, so these are 0 and 6 to 255. */
  type UnnamedLvlCode = code: nat | code == 0 || 6 <= code < 0x100

  /** Echo's `log.Lvl`. Go lets any value of the underlying integer type
      be a `Lvl`; `Unnamed` stands for any value with no exported constant,
      so each value has exactly one encoding. */
  datatype Lvl = DEBUG | INFO | WARN | ERROR | OFF | Unnamed(code: UnnamedLvlCode)

  /** The logrus `Level` (a `uint32`) values with no name: Panic to Trace
      are 0 to 6. */
  type UnnamedBackendCode = code: nat | 7 <= code < 0x1_0000_0000 witness 7

  /** logrus's `Level`, with the same allowance for unnamed values. */
  datatype BackendLevel =
    | PanicLevel | FatalLevel | ErrorLevel | WarnLevel | InfoLevel | DebugLevel | TraceLevel
    | UnnamedLevel(code: UnnamedBackendCode)

  /** The diagnostic both translations panic with. */
  const InvalidLevel: string := "Invalid level"

  /** The four levels both sides name. */
  predicate Translatable(l: Lvl) {
    l == DEBUG || l == INFO || l == WARN || l == ERROR
  }

  predicate BackendTranslatable(b: BackendLevel) {
    b == DebugLevel || b == InfoLevel || b == WarnLevel || b == ErrorLevel
  }

  /** `logrusLogger.Level`: read a backend level as an Echo level; every
      backend level other than Debug, Info, Warn and Error panics, so OFF
      is never returned normally. */
  function ToEcho(b: BackendLevel): (r: Outcome<Lvl>)
    ensures r.Normal? <==> BackendTranslatable(b)
    ensures r.Normal? ==> Translatable(r.value) && r.value != OFF
    ensures r.Abort? ==> r.message == InvalidLevel
    ensures b == DebugLevel ==> r == Normal(DEBUG)
    ensures b == InfoLevel ==> r == Normal(INFO)
    ensures b == WarnLevel ==> r == Normal(WARN)
    ensures b == ErrorLevel ==> r == Normal(ERROR)
  {
    match b
    case DebugLevel => Normal(DEBUG)
    case WarnLevel => Normal(WARN)
    case ErrorLevel => Normal(ERROR)
    case InfoLevel => Normal(INFO)
    case _ => Abort(InvalidLevel)
  }

  /** `logrusLogger.SetLevel`'s switch: the backend level an Echo level is
      written as; OFF and every unnamed value panic. */
  function ToBackend(l: Lvl): (r: Outcome<BackendLevel>)
    ensures r.Normal? <==> Translatable(l)
    ensures r.Normal? ==> BackendTranslatable(r.value)
    ensures r.Abort? ==> r.message == InvalidLevel
    ensures l == OFF ==> r.Abort?
  {
    match l
    case DEBUG => Normal(DebugLevel)
    case WARN => Normal(WarnLevel)
    case ERROR => Normal(ErrorLevel)
    case INFO => Normal(InfoLevel)
    case _ => Abort(InvalidLevel)
  }

  /** Setting a level and reading it back yields the level that was set. */
  lemma SetThenGet(l: Lvl)
    requires Translatable(l)
    ensures ToBackend(l).Normal? && ToEcho(ToBackend(l).value) == Normal(l)
  {
  }

  /** Reading a level and setting it again writes back the level read. */
  lemma GetThenSet(b: BackendLevel)
    requires BackendTranslatable(b)
    ensures ToEcho(b).Normal? && ToBackend(ToEcho(b).value) == Normal(b)
  {
  }

  /** The translation is one-to-one on the levels it accepts. */
  lemma ToBackendInjective(l1: Lvl, l2: Lvl)
    requires ToBackend(l1).Normal? && ToBackend(l1) == ToBackend(l2)
    ensures l1 == l2
  {
    SetThenGet(l1);
    SetThenGet(l2);
  }
}
