/** The activity log of the Orbital Sovereigns screens: entries carry a
    level, a message and the time they were made, and are only ever
    appended. */
module OrbitalLog {
  import opened OrbitalTime

  datatype LogLevel = Info | Success | Warning | Error

  /** `css_class`: the style class of a level. */
  function CssClass(level: LogLevel): (r: string)
    ensures r == "info" <==> level == Info
    ensures r == "success" <==> level == Success
    ensures r == "warn" <==> level == Warning
    ensures r == "error" <==> level == Error
  {
    match level
    case Info => "info"
    case Success => "success"
    case Warning => "warn"
    case Error => "error"
  }

  /** Different levels are styled differently. */
  lemma CssClassesDistinct(a: LogLevel, b: LogLevel)
    ensures CssClass(a) == CssClass(b) <==> a == b
  {
  }

  datatype LogEntry = LogEntry(level: LogLevel, message: string, timestamp: Instant)

  /** `LogEntry::new`; the clock reading is `now`. */
  function NewEntry(level: LogLevel, message: string, now: Instant): (e: LogEntry)
    ensures e.level == level && e.message == message && e.timestamp == now
  {
    LogEntry(level, message, now)
  }

  /** The log signal's vector of entries. */
  class ActivityLog {
    var entries: seq<LogEntry>

    constructor ()
      ensures entries == []
    {
      entries := [];
    }

    /** `push_log`: one new entry at the end; there is no cap, and the
        earlier entries stay as they were. */
    method PushLog(level: LogLevel, message: string, now: Instant)
      modifies this
      ensures entries == old(entries) + [NewEntry(level, message, now)]
      ensures |entries| == |old(entries)| + 1 && entries[..|old(entries)|] == old(entries)
    {
      entries := entries + [NewEntry(level, message, now)];
    }
  }
}
