/**
 * The logger of src/notion/utils/logger.ts: a mutable threshold and four
 * emitters that write one record each when their level passes the threshold.
 * The console is modelled as the sequence of records emitted so far; the
 * timestamp and the JSON formatting of a record are not modelled.
 */
module Logging {
  import opened Wrappers
  import opened Json

  datatype LogLevel = Debug | Info | Warn | Error

  /** The numeric weight of a level: debug 0 < info 1 < warn 2 < error 3. */
  function Rank(level: LogLevel): nat {
    match level
    case Debug => 0
    case Info => 1
    case Warn => 2
    case Error => 3
  }

  /** A record of `level` is written under `threshold` when it weighs at least as much. */
  predicate Enabled(level: LogLevel, threshold: LogLevel) {
    Rank(level) >= Rank(threshold)
  }

  const InitialLevel: LogLevel := Info

  datatype LogRecord = LogRecord(level: LogLevel, message: string, context: Option<Json>)

  /** Distinct levels have distinct ranks, so the ranks order the levels strictly. */
  lemma RankIsStrictOrder(a: LogLevel, b: LogLevel)
    ensures Rank(a) == Rank(b) <==> a == b
    ensures Rank(a) < 4
  {
  }

  /** Errors are written under every threshold. */
  lemma ErrorAlwaysEnabled(threshold: LogLevel)
    ensures Enabled(Error, threshold)
  {
  }

  /** Debug records are written only when the threshold is debug. */
  lemma DebugOnlyUnderDebug(threshold: LogLevel)
    ensures Enabled(Debug, threshold) <==> threshold == Debug
  {
  }

  /** Enabling is upward closed: a level above an enabled one is enabled too. */
  lemma EnabledIsMonotone(level: LogLevel, higher: LogLevel, threshold: LogLevel)
    requires Enabled(level, threshold) && Rank(level) <= Rank(higher)
    ensures Enabled(higher, threshold)
  {
  }

  /** A lower threshold enables every level a higher threshold enables. */
  lemma LoweringThresholdEnablesMore(level: LogLevel, low: LogLevel, high: LogLevel)
    requires Rank(low) <= Rank(high) && Enabled(level, high)
    ensures Enabled(level, low)
  {
  }

  class Logger {
    var logLevel: LogLevel
    /** Everything written to the console so far, oldest first. */
    var output: seq<LogRecord>

    constructor ()
      ensures logLevel == InitialLevel && output == []
    {
      logLevel := InitialLevel;
      output := [];
    }

    method SetLogLevel(level: LogLevel)
      modifies this`logLevel
      ensures logLevel == level
      ensures forall l :: IsLevelEnabled(l) <==> Enabled(l, level)
    {
      logLevel := level;
    }

    /** The level's weight is at least the threshold's: errors always pass, debug only under debug. */
    function IsLevelEnabled(level: LogLevel): (r: bool)
      reads this
      ensures r <==> Rank(level) >= Rank(logLevel)
      ensures level == LogLevel.Error ==> r
      ensures level == LogLevel.Debug ==> (r <==> logLevel == LogLevel.Debug)
    {
      Enabled(level, logLevel)
    }

    /** Shared body of the four emitters: one record when enabled, nothing otherwise. */
    method Emit(level: LogLevel, message: string, context: Option<Json>)
      modifies this`output
      ensures IsLevelEnabled(level) ==> output == old(output) + [LogRecord(level, message, context)]
      ensures !IsLevelEnabled(level) ==> output == old(output)
    {
      if IsLevelEnabled(level) {
        output := output + [LogRecord(level, message, context)];
      }
    }

    method Debug(message: string, context: Option<Json>)
      modifies this`output
      ensures output == old(output) + if logLevel == LogLevel.Debug then [LogRecord(LogLevel.Debug, message, context)] else []
    {
      DebugOnlyUnderDebug(logLevel);
      Emit(LogLevel.Debug, message, context);
    }

    method Info(message: string, context: Option<Json>)
      modifies this`output
      ensures output == old(output) + if logLevel != LogLevel.Warn && logLevel != LogLevel.Error then [LogRecord(LogLevel.Info, message, context)] else []
    {
      Emit(LogLevel.Info, message, context);
    }

    method Warn(message: string, context: Option<Json>)
      modifies this`output
      ensures output == old(output) + if logLevel != LogLevel.Error then [LogRecord(LogLevel.Warn, message, context)] else []
    {
      Emit(LogLevel.Warn, message, context);
    }

    method Error(message: string, context: Option<Json>)
      modifies this`output
      ensures output == old(output) + [LogRecord(LogLevel.Error, message, context)]
    {
      ErrorAlwaysEnabled(logLevel);
      Emit(LogLevel.Error, message, context);
    }
  }
}
