/**
 * The level-filtered logger: a level and a writer. A message is written
 * when the logger's level is at least the level the call requires; the
 * writer appends every message it is given to its log.
 */
module Log {

  /** Levels are ordered: silent below error below warn below info. */
  const LevelSilent: int := 0
  const LevelError: int := 1
  const LevelWarn: int := 2
  const LevelInfo: int := 3

  /** What a logger at `level` writes for one message that requires `required`. */
  function Emitted(level: int, required: int, message: string): (r: seq<string>)
    ensures |r| <= 1
    ensures r == [message] <==> level >= required
    ensures r == [] <==> level < required
  {
    if level < required then [] else [message]
  }

  /** Raising the level never drops a message that was written. */
  lemma EmittedMonotone(level: int, level': int, required: int, message: string)
    requires level <= level'
    requires Emitted(level, required, message) == [message]
    ensures Emitted(level', required, message) == [message]
  {
  }

  /** A silent logger writes no info, warning or error. */
  lemma SilentWritesNothing(message: string)
    ensures Emitted(LevelSilent, LevelInfo, message) == []
    ensures Emitted(LevelSilent, LevelWarn, message) == []
    ensures Emitted(LevelSilent, LevelError, message) == []
  {
  }

  /** A writer that keeps what it is given, in order. */
  class Writer {
    var logs: seq<string>

    constructor()
      ensures logs == []
    {
      logs := [];
    }

    method Printf(message: string)
      modifies this
      ensures logs == old(logs) + [message]
    {
      logs := logs + [message];
    }
  }

  class DefaultLogger {
    var level: int
    var writer: Writer

    /** A new logger is silent and writes to a writer of its own. */
    constructor()
      ensures level == LevelSilent && fresh(writer) && writer.logs == []
    {
      level := LevelSilent;
      writer := new Writer();
    }

    /** Sets the level and returns the same logger. */
    method WithLevel(level: int) returns (l: DefaultLogger)
      modifies this
      ensures l == this && this.level == level && writer == old(writer)
    {
      this.level := level;
      return this;
    }

    /** Sets the writer and returns the same logger. */
    method WithWriter(writer: Writer) returns (l: DefaultLogger)
      modifies this
      ensures l == this && this.writer == writer && level == old(level)
    {
      this.writer := writer;
      return this;
    }

    method LogIfPermittedByLevel(requiredLevel: int, message: string)
      modifies writer
      ensures writer.logs == old(writer.logs) + Emitted(level, requiredLevel, message)
    {
      if level < requiredLevel {
        return;
      }
      writer.Printf(message);
    }

    method Info(message: string)
      modifies writer
      ensures writer.logs == old(writer.logs) + Emitted(level, LevelInfo, message)
    {
      LogIfPermittedByLevel(LevelInfo, message);
    }

    method Warn(message: string)
      modifies writer
      ensures writer.logs == old(writer.logs) + Emitted(level, LevelWarn, message)
    {
      LogIfPermittedByLevel(LevelWarn, message);
    }

    method Error(message: string)
      modifies writer
      ensures writer.logs == old(writer.logs) + Emitted(level, LevelError, message)
    {
      LogIfPermittedByLevel(LevelError, message);
    }
  }

  /** A logger set to `level`, writing to a fresh writer, given one info, one warning and one error. */
  method LogThree(level: int, info: string, warn: string, error: string) returns (logs: seq<string>)
    ensures logs == Emitted(level, LevelInfo, info) + Emitted(level, LevelWarn, warn) + Emitted(level, LevelError, error)
  {
    var w := new Writer();
    var logger := new DefaultLogger();
    logger := logger.WithLevel(level);
    logger := logger.WithWriter(w);
    logger.Info(info);
    logger.Warn(warn);
    logger.Error(error);
    logs := w.logs;
  }

  /** At info level all three messages are written, in call order. */
  method LevelInfoScenario() returns (logs: seq<string>)
    ensures logs == ["This should be logged", "This should also be logged", "This should also be logged"]
  {
    logs := LogThree(LevelInfo, "This should be logged", "This should also be logged", "This should also be logged");
  }

  /** At silent level nothing is written. */
  method LevelSilentScenario() returns (logs: seq<string>)
    ensures logs == []
  {
    logs := LogThree(LevelSilent, "This should not be logged", "This should not be logged", "This should not be logged");
  }

  /** At warn level the info message is dropped and the other two are written in order. */
  method LevelWarnScenario() returns (logs: seq<string>)
    ensures logs == ["This should be logged", "This should also be logged"]
  {
    logs := LogThree(LevelWarn, "This should not be logged", "This should be logged", "This should also be logged");
  }
}
