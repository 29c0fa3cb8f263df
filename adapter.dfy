/** `logrusLogger` (broadcast/logger.go:23-65): the adapter that lets a
    logrus logger serve as Echo's logger. Only its level controls carry
    behaviour; the rest forwards into logrus. */
module Adapter {
  import opened Common
  import opened Levels
  import opened Backend

  /** The entry `l.Panic("Invalid level")` hands to the embedded logger
      before panicking. */
  function PanicEntry(): (e: Entry)
    ensures e.level == PanicLevel && e.message == InvalidLevel && e.fields == map[]
  {
    Entry(PanicLevel, InvalidLevel, map[])
  }

  class LogrusLogger {
    /** The embedded `*logrus.Logger`, which `Level` reads. */
    const logger: Logger
    /** logrus's process-wide standard logger, which the package-level
        `logrus.SetLevel` writes. */
    const global: Logger

    constructor (logger: Logger, global: Logger)
      ensures this.logger == logger && this.global == global
    {
      this.logger := logger;
      this.global := global;
    }

    /** The level round trip needs the adapter to wrap the standard logger
        itself, so that the level written is the level read. */
    predicate Shared() {
      logger == global
    }

    /** `Level` (broadcast/logger.go:27-42): the embedded logger's level as
        an Echo level; any other backend level logs "Invalid level" at
        panic level and aborts. */
    method Level() returns (r: Outcome<Lvl>)
      modifies logger
      ensures r == ToEcho(old(logger.level))
      ensures r.Normal? ==> r.value != OFF && unchanged(logger)
      ensures r.Abort? ==> logger.entries == old(logger.entries) + [PanicEntry()]
                           && logger.level == old(logger.level)
    {
      match logger.level
      case DebugLevel => r := Normal(DEBUG);
      case WarnLevel => r := Normal(WARN);
      case ErrorLevel => r := Normal(ERROR);
      case InfoLevel => r := Normal(INFO);
      case _ =>
        logger.Log(PanicEntry());
        r := Abort(InvalidLevel);
    }

    /** `SetLevel` (broadcast/logger.go:52-65): writes the translated level
        to the standard logger; OFF and every other value log
        "Invalid level" on the embedded logger and abort, leaving every
        level as it was. */
    method SetLevel(lvl: Lvl) returns (r: Outcome<()>)
      modifies logger, global
      ensures r.Normal? <==> Translatable(lvl)
      ensures r.Abort? ==> r.message == InvalidLevel
      ensures r.Normal? ==> global.level == ToBackend(lvl).value
                            && global.entries == old(global.entries)
                            && (!Shared() ==> unchanged(logger))
      ensures r.Abort? ==> logger.entries == old(logger.entries) + [PanicEntry()]
                           && logger.level == old(logger.level)
                           && global.level == old(global.level)
                           && (!Shared() ==> unchanged(global))
      // what a later `Level()` on a shared logger reads back
      ensures r.Normal? && Shared() ==> ToEcho(logger.level) == Normal(lvl)
    {
      match lvl
      case DEBUG => global.SetLevel(DebugLevel); r := Normal(());
      case WARN => global.SetLevel(WarnLevel); r := Normal(());
      case ERROR => global.SetLevel(ErrorLevel); r := Normal(());
      case INFO => global.SetLevel(InfoLevel); r := Normal(());
      case _ =>
        logger.Log(PanicEntry());
        r := Abort(InvalidLevel);
    }
  }
}
