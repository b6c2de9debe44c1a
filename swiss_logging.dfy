/** The Swiss Knife's activity log: a list of entries capped at the 200
    most recent. */
module SwissLogging {

  datatype LogLevel = Info | Success | Error

  datatype LogEntry = LogEntry(level: LogLevel, message: string)

  /** The most entries the log keeps. */
  const LogCap: nat := 200

  /** `LogEntry::class`: the CSS class of an entry's level. */
  function Class(level: LogLevel): (r: string)
    ensures r == "log-info" <==> level == Info
    ensures r == "log-success" <==> level == Success
    ensures r == "log-error" <==> level == Error
  {
    match level
    case Info => "log-info"
    case Success => "log-success"
    case Error => "log-error"
  }

  /** The last `cap` entries of `xs` (all of them when there are fewer). */
  function Newest<T>(xs: seq<T>, cap: nat): seq<T>
  {
    if |xs| > cap then xs[|xs| - cap..] else xs
  }

  /** After appending to a log, the newest entries are at most `cap`, the
      appended entry comes last, and the survivors are the previous entries
      with only the oldest dropped, in their order. */
  lemma NewestAfterAppend<T>(xs: seq<T>, x: T, cap: nat)
    requires 0 < cap && |xs| <= cap
    ensures |Newest(xs + [x], cap)| <= cap
    ensures Newest(xs + [x], cap)[|Newest(xs + [x], cap)| - 1] == x
    ensures |xs| < cap ==> Newest(xs + [x], cap) == xs + [x]
    ensures |xs| == cap ==> Newest(xs + [x], cap) == xs[1..] + [x]
  {
    if |xs| == cap {
      assert (xs + [x])[1..] == xs[1..] + [x];
    }
  }

  /** The log of one screen, as the signal's vector of entries. */
  class ActivityLog {
    var entries: seq<LogEntry>

    ghost predicate Valid()
      reads this
    {
      |entries| <= LogCap
    }

    constructor()
      ensures Valid() && entries == []
    {
      entries := [];
    }

    /** `push_log`: append, then drain the front beyond 200 entries. */
    method PushLog(level: LogLevel, message: string)
      modifies this
      ensures Valid()
      ensures entries == Newest(old(entries) + [LogEntry(level, message)], LogCap)
    {
      entries := entries + [LogEntry(level, message)];
      if |entries| > LogCap {
        var drop := |entries| - LogCap;
        entries := entries[drop..];
      }
    }
  }
}
