/** EventLogger's in-memory log: a FIFO that keeps at most maxLogEntries of
    the newest entries. Console and file output are not modelled. */
module EventLogging {

  /** LogEntry; the timestamp is the time of the Log call. */
  datatype LogEntry = LogEntry(timestamp: real, eventType: string, message: string, details: string)

  const DefaultMaxLogEntries := 1000

  /** How many entries the log can hold: maxLogEntries, or none when it is
      negative (every Log then removes the entry it just added). */
  function Capacity(maxLogEntries: int): nat
  {
    if maxLogEntries < 0 then 0 else maxLogEntries
  }

  /** The newest entries, as many as fit. */
  function Retained(logged: seq<LogEntry>, maxLogEntries: int): (r: seq<LogEntry>)
    ensures |r| <= Capacity(maxLogEntries) && |r| <= |logged|
    ensures |logged| <= Capacity(maxLogEntries) ==> r == logged
  {
    if |logged| <= Capacity(maxLogEntries) then logged else logged[|logged| - Capacity(maxLogEntries)..]
  }

  /** Log on an enabled logger: append, then drop the oldest entry if the
      count went past maxLogEntries. */
  function LogStep(entries: seq<LogEntry>, maxLogEntries: int, entry: LogEntry): seq<LogEntry>
  {
    var added := entries + [entry];
    if |added| > maxLogEntries then added[1..] else added
  }

  /** Logging on the retained window gives the window of the longer history:
      the log always holds exactly the newest entries, oldest first. */
  lemma LogKeepsNewest(logged: seq<LogEntry>, maxLogEntries: int, entry: LogEntry)
    ensures LogStep(Retained(logged, maxLogEntries), maxLogEntries, entry) == Retained(logged + [entry], maxLogEntries)
  {
    var c := Capacity(maxLogEntries);
    var w := Retained(logged, maxLogEntries);
    var all := logged + [entry];
    if |logged| < c {
      assert w == logged;
    } else if |logged| == c {
      assert w == logged;
      if maxLogEntries >= 0 {
        assert (w + [entry])[1..] == all[|all| - c..];
      } else {
        assert |w| == 0;
        assert (w + [entry])[1..] == [];
      }
    } else {
      assert w == logged[|logged| - c..];
      assert (w + [entry])[1..] == all[|all| - c..];
    }
  }

  class EventLogger {
    const enableLogging: bool
    const maxLogEntries: int
    var logEntries: seq<LogEntry>
    /** Everything logged since the last ClearLog. */
    ghost var logged: seq<LogEntry>

    ghost predicate Valid()
      reads this
    {
      logEntries == Retained(logged, maxLogEntries)
    }

    constructor(enabled: bool, maxEntries: int)
      ensures enableLogging == enabled && maxLogEntries == maxEntries
      ensures logEntries == [] && Valid()
    {
      enableLogging := enabled;
      maxLogEntries := maxEntries;
      logEntries := [];
      logged := [];
    }

    /** Log; details default to "". */
    method Log(eventType: string, message: string, now: real, details: string := "")
      requires Valid()
      modifies this
      ensures Valid()
      ensures !enableLogging ==> logEntries == old(logEntries) && logged == old(logged)
      ensures enableLogging ==>
        logged == old(logged) + [LogEntry(now, eventType, message, details)]
        && logEntries == LogStep(old(logEntries), maxLogEntries, LogEntry(now, eventType, message, details))
    {
      if !enableLogging {
        return;
      }
      var entry := LogEntry(now, eventType, message, details);
      LogKeepsNewest(logged, maxLogEntries, entry);
      logEntries := logEntries + [entry];
      if |logEntries| > maxLogEntries {
        logEntries := logEntries[1..];
      }
      logged := logged + [entry];
    }

    /** A new list equal to the log. The entries are values here; in the
        source the list shares its entry objects with the logger. */
    method GetLogEntries() returns (copy: seq<LogEntry>)
      ensures copy == logEntries
    {
      copy := logEntries;
    }

    method ClearLog()
      modifies this
      ensures logEntries == [] && logged == [] && Valid()
    {
      logEntries := [];
      logged := [];
    }
  }

  /** With a non-negative bound the log never holds more than maxLogEntries
      entries; with a negative bound it stays empty. */
  lemma LogBound(logged: seq<LogEntry>, maxLogEntries: int)
    ensures maxLogEntries >= 0 ==> |Retained(logged, maxLogEntries)| <= maxLogEntries
    ensures maxLogEntries < 0 ==> Retained(logged, maxLogEntries) == []
  {
  }
}
