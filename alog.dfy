/**
  The editor's log: an append-only list of entries that log windows drain with a cursor, a lazily
  created shared logger reached through a global, and the remembered window position and size.
  The window, its events and the two recursive mutexes are not modelled; the clock is a parameter.
*/
module ALogging {

  datatype Channel = INFO | ERR | WARN

  datatype ALogEntry = ALogEntry(Time: int, Text: string, Channel: Channel)

  /** An `FVector2D`: two floats, taken here as reals. */
  datatype Vector2D = Vector2D(X: real, Y: real)

  datatype LogConfig = LogConfig(LogPosition: Vector2D, LogSize: Vector2D)

  datatype Point = Point(x: int, y: int)

  /** `wxDefaultPosition`. */
  const DefaultPosition: Point := Point(-1, -1)

  /** The C++ float-to-int conversion: the fraction is dropped, rounding toward zero. */
  function Truncate(r: real): (n: int)
    ensures r >= 0.0 ==> n as real <= r < n as real + 1.0
    ensures r < 0.0 ==> n as real - 1.0 < r <= n as real
  {
    if r >= 0.0 then r.Floor else -((-r).Floor)
  }

  /** Window position of a stored vector: (-1, -1) becomes `wxDefaultPosition`, anything else the point itself. */
  function FVectorToPoint(v: Vector2D): (p: Point)
    ensures p == Point(Truncate(v.X), Truncate(v.Y))
  {
    var x := Truncate(v.X);
    var y := Truncate(v.Y);
    if x == -1 && y == -1 then DefaultPosition else Point(x, y)
  }

  /**
    The result is always the truncated point, since `wxDefaultPosition` is itself (-1, -1); it is the
    default position exactly when both coordinates lie in (-2, -1].
  */
  lemma FVectorToPointCoordinates(v: Vector2D)
    ensures FVectorToPoint(v) == Point(Truncate(v.X), Truncate(v.Y))
    ensures FVectorToPoint(v) == DefaultPosition <==> -2.0 < v.X <= -1.0 && -2.0 < v.Y <= -1.0
  {
  }

  class ALog {
    var Entries: seq<ALogEntry>
    var LastPosition: Vector2D
    var LastSize: Vector2D

    constructor()
      ensures Entries == []
    {
      Entries := [];
      LastPosition := Vector2D(0.0, 0.0);
      LastSize := Vector2D(0.0, 0.0);
    }

    /** Append one entry; nothing else changes. */
    method Push(entry: ALogEntry)
      modifies this
      ensures Entries == old(Entries) + [entry]
      ensures LastPosition == old(LastPosition) && LastSize == old(LastSize)
    {
      Entries := Entries + [entry];
    }

    /**
      Drain the entries from the cursor on: every entry at or after `index` is appended to `output` in
      order and the cursor moves to the end. A cursor at or past the end changes nothing.
    */
    method GetEntries(output: seq<ALogEntry>, index: nat) returns (output': seq<ALogEntry>, index': nat)
      ensures index < |Entries| ==> output' == output + Entries[index..] && index' == |Entries|
      ensures index >= |Entries| ==> output' == output && index' == index
    {
      output', index' := output, index;
      while index' < |Entries|
        invariant index <= index'
        invariant index < |Entries| ==> index' <= |Entries| && output' == output + Entries[index..index']
        invariant index >= |Entries| ==> output' == output && index' == index
      {
        output' := output' + [Entries[index']];
        index' := index' + 1;
      }
    }

    /** `_SetConfig`: makes sure the shared logger exists, then stores the config in this logger. */
    method InstanceSetConfig(g: LogGlobals, cfg: LogConfig)
      modifies this, g
      ensures LastPosition == cfg.LogPosition && LastSize == cfg.LogSize
      ensures Entries == old(Entries)
      ensures g.SharedLogger != null
      ensures old(g.SharedLogger) != null ==> g.SharedLogger == old(g.SharedLogger)
      ensures old(g.SharedLogger) != null && old(g.SharedLogger) != this ==>
                g.SharedLogger.LastPosition == old(g.SharedLogger.LastPosition) && g.SharedLogger.LastSize == old(g.SharedLogger.LastSize)
    {
      var l := g.SharedLog();
      LastPosition := cfg.LogPosition;
      LastSize := cfg.LogSize;
    }

    /** `_GetConfig`: reads the position and size of the shared logger, whichever logger it is called on. */
    method InstanceGetConfig(g: LogGlobals) returns (cfg: LogConfig)
      modifies g
      ensures g.SharedLogger != null
      ensures old(g.SharedLogger) != null ==> g.SharedLogger == old(g.SharedLogger)
      ensures cfg == LogConfig(g.SharedLogger.LastPosition, g.SharedLogger.LastSize)
    {
      var l := g.SharedLog();
      cfg := LogConfig(l.LastPosition, l.LastSize);
    }
  }

  /** The global `SharedLogger` pointer and the static members of `ALog` that go through it. */
  class LogGlobals {
    var SharedLogger: ALog?

    constructor()
      ensures SharedLogger == null
    {
      SharedLogger := null;
    }

    /** Create the logger on first use; afterwards return the same one. */
    method SharedLog() returns (l: ALog)
      modifies this
      ensures SharedLogger == l
      ensures old(SharedLogger) != null ==> l == old(SharedLogger)
      ensures old(SharedLogger) == null ==> fresh(l) && l.Entries == []
    {
      if SharedLogger == null {
        SharedLogger := new ALog();
      }
      l := SharedLogger;
    }

    /**
      `ALog::Log`: push onto the shared logger, which must already exist (the pointer is not checked).
      The stored window position and size are not touched.
    */
    method Log(msg: string, channel: Channel, now: int)
      requires SharedLogger != null
      modifies SharedLogger
      ensures SharedLogger.Entries == old(SharedLogger.Entries) + [ALogEntry(now, msg, channel)]
      ensures SharedLogger.LastPosition == old(SharedLogger.LastPosition) && SharedLogger.LastSize == old(SharedLogger.LastSize)
    {
      SharedLogger.Push(ALogEntry(now, msg, channel));
    }

    method ILog(msg: string, now: int)
      requires SharedLogger != null
      modifies SharedLogger
      ensures SharedLogger.Entries == old(SharedLogger.Entries) + [ALogEntry(now, msg, INFO)]
      ensures SharedLogger.LastPosition == old(SharedLogger.LastPosition) && SharedLogger.LastSize == old(SharedLogger.LastSize)
    {
      Log(msg, INFO, now);
    }

    method ELog(msg: string, now: int)
      requires SharedLogger != null
      modifies SharedLogger
      ensures SharedLogger.Entries == old(SharedLogger.Entries) + [ALogEntry(now, msg, ERR)]
      ensures SharedLogger.LastPosition == old(SharedLogger.LastPosition) && SharedLogger.LastSize == old(SharedLogger.LastSize)
    {
      Log(msg, ERR, now);
    }

    method WLog(msg: string, now: int)
      requires SharedLogger != null
      modifies SharedLogger
      ensures SharedLogger.Entries == old(SharedLogger.Entries) + [ALogEntry(now, msg, WARN)]
      ensures SharedLogger.LastPosition == old(SharedLogger.LastPosition) && SharedLogger.LastSize == old(SharedLogger.LastSize)
    {
      Log(msg, WARN, now);
    }

    /** Static `SetConfig`: store the config in the shared logger, creating it if needed. */
    method SetConfig(cfg: LogConfig)
      modifies this, SharedLogger
      ensures SharedLogger != null
      ensures SharedLogger.LastPosition == cfg.LogPosition && SharedLogger.LastSize == cfg.LogSize
      ensures old(SharedLogger) != null ==> SharedLogger == old(SharedLogger) && SharedLogger.Entries == old(SharedLogger.Entries)
      ensures old(SharedLogger) == null ==> fresh(SharedLogger)
    {
      var l := SharedLog();
      l.InstanceSetConfig(this, cfg);
    }

    /** Static `GetConfig`: the shared logger's position and size, creating the logger if needed. */
    method GetConfig() returns (cfg: LogConfig)
      modifies this
      ensures SharedLogger != null
      ensures old(SharedLogger) != null ==> SharedLogger == old(SharedLogger)
      ensures cfg == LogConfig(SharedLogger.LastPosition, SharedLogger.LastSize)
    {
      var l := SharedLog();
      cfg := l.InstanceGetConfig(this);
    }
  }

  /** Storing a config and fetching it back through the static members returns exactly what was stored. */
  method ConfigRoundTrip(g: LogGlobals, cfg: LogConfig) returns (back: LogConfig)
    modifies g, g.SharedLogger
    ensures back == cfg
  {
    g.SetConfig(cfg);
    back := g.GetConfig();
  }

  /** Logging between storing a config and fetching it back does not disturb it. */
  method ConfigSurvivesLogging(g: LogGlobals, cfg: LogConfig, msg: string, now: int) returns (back: LogConfig)
    modifies g, g.SharedLogger
    ensures back == cfg
    ensures g.SharedLogger != null && |g.SharedLogger.Entries| > 0
    ensures g.SharedLogger.Entries[|g.SharedLogger.Entries| - 1] == ALogEntry(now, msg, INFO)
  {
    g.SetConfig(cfg);
    g.ILog(msg, now);
    back := g.GetConfig();
  }

  /** Every call to `SharedLog` after the first returns the logger the first one created. */
  method SharedLogIsStable(g: LogGlobals) returns (first: ALog, second: ALog)
    modifies g
    ensures first == second == g.SharedLogger
  {
    first := g.SharedLog();
    second := g.SharedLog();
  }

  /** Entries pushed between two drains are exactly what the second drain returns. */
  method DrainAfterPush(log: ALog, e1: ALogEntry, e2: ALogEntry) returns (drained: seq<ALogEntry>)
    modifies log
    ensures drained == [e1, e2]
    ensures log.Entries == old(log.Entries) + [e1, e2]
  {
    var earlier, cursor := log.GetEntries([], 0);
    log.Push(e1);
    log.Push(e2);
    drained, cursor := log.GetEntries([], cursor);
  }
}
