/**
 * KafkaExceptionLogLevelAware: the level at which an error handler logs the
 * exceptions it throws; ERROR until set otherwise.
 */
module LogLevels {
  import opened Support

  /** KafkaException.Level. */
  datatype Level = FATAL | ERROR | WARN | INFO | DEBUG | TRACE

  /** The level after `setLogLevel(requested)` at level `current`: a null request leaves it. */
  function LevelAfterSet(current: Level, requested: Option<Level>): Level
  {
    if requested.None? then current else requested.value
  }

  /** Setting the same level twice is the same as setting it once. */
  lemma SetLogLevelIdempotent(current: Level, requested: Option<Level>)
    ensures LevelAfterSet(LevelAfterSet(current, requested), requested) == LevelAfterSet(current, requested)
  {
  }

  /** Of two successful sets, the later one decides the level. */
  lemma LastSetWins(current: Level, first: Option<Level>, second: Level)
    ensures LevelAfterSet(LevelAfterSet(current, first), Some(second)) == second
  {
  }

  class KafkaExceptionLogLevelAware {
    var logLevel: Level

    constructor()
      ensures logLevel == ERROR
    {
      logLevel := ERROR;
    }

    /** `setLogLevel`: a null level is rejected and the current one kept. */
    method SetLogLevel(level: Option<Level>) returns (outcome: Outcome)
      modifies this
      ensures logLevel == LevelAfterSet(old(logLevel), level)
      ensures level.None? ==> outcome == Threw(IllegalArgument("'logLevel' cannot be null")) && logLevel == old(logLevel)
      ensures level.Some? ==> outcome == Done && logLevel == level.value
    {
      if level.None? {
        return Threw(IllegalArgument("'logLevel' cannot be null"));
      }
      logLevel := level.value;
      outcome := Done;
    }

    method GetLogLevel() returns (level: Level)
      ensures level == logLevel
    {
      level := logLevel;
    }
  }
}
