/** The homeserver's in-memory log: a bounded store that keeps the most
    recent entries, numbered in push order, and the layer that turns a
    tracing event into an entry. */
module HomeLogs {
  import opened Wrappers

  /** `DEFAULT_CAPACITY`, the size of the store the app creates. */
  const DefaultCapacity: nat := 500

  /** A tracing level. */
  datatype Level = Trace | Debug | Info | Warn | Error

  datatype LogField = LogField(name: string, value: string)

  datatype LogEntry = LogEntry(
    sequence: nat,
    timestamp: string,
    level: Level,
    target: string,
    message: string,
    fields: seq<LogField>)

  function Min(a: nat, b: nat): nat
  {
    if a <= b then a else b
  }

  /** The last `capacity` entries of `history`, or all of them when there
      are fewer. */
  function Window(history: seq<LogEntry>, capacity: nat): (w: seq<LogEntry>)
    ensures |w| == Min(|history|, capacity)
  {
    history[|history| - Min(|history|, capacity)..]
  }

  /** The store's entries after `push` adds `entry`: when the store is full
      the oldest entry is dropped first. */
  function Pushed(entries: seq<LogEntry>, capacity: nat, entry: LogEntry): seq<LogEntry>
  {
    (if |entries| >= capacity && entries != [] then entries[1..] else entries) + [entry]
  }

  /** Pushing onto the window of a history gives the window of the history
      with the entry appended. */
  lemma PushedWindow(history: seq<LogEntry>, capacity: nat, entry: LogEntry)
    requires capacity >= 1
    ensures Pushed(Window(history, capacity), capacity, entry) == Window(history + [entry], capacity)
  {
    var h := history + [entry];
    if |history| >= capacity {
      assert Window(history, capacity)[1..] == h[|h| - capacity..|h| - 1];
    } else {
      assert Window(history, capacity) == history;
      assert Window(h, capacity) == h;
    }
  }

  /** The entries after pushing each of `more` in turn. */
  function PushAll(entries: seq<LogEntry>, capacity: nat, more: seq<LogEntry>): seq<LogEntry>
  {
    if more == [] then entries
    else Pushed(PushAll(entries, capacity, more[..|more| - 1]), capacity, more[|more| - 1])
  }

  /** However many entries are pushed, the store holds exactly the most
      recent `capacity` of everything pushed, oldest first. */
  lemma {:induction false} PushAllKeepsWindow(history: seq<LogEntry>, capacity: nat, more: seq<LogEntry>)
    requires capacity >= 1
    ensures PushAll(Window(history, capacity), capacity, more) == Window(history + more, capacity)
    decreases |more|
  {
    if more != [] {
      var front := more[..|more| - 1];
      PushAllKeepsWindow(history, capacity, front);
      PushedWindow(history + front, capacity, more[|more| - 1]);
      assert history + front + [more[|more| - 1]] == history + more;
    }
  }

  /** A push never lets the store grow past its capacity, evicts exactly
      the oldest entry when the store is full, and puts the new entry
      last. */
  lemma PushBounded(entries: seq<LogEntry>, capacity: nat, entry: LogEntry)
    requires capacity >= 1 && |entries| <= capacity
    ensures var r := Pushed(entries, capacity, entry);
      && |r| <= capacity && r[|r| - 1] == entry
      && (|entries| == capacity ==> r == entries[1..] + [entry])
      && (|entries| < capacity ==> r == entries + [entry])
  {
  }

  /** Every entry of a numbered history carries its position plus one. */
  ghost predicate Numbered(history: seq<LogEntry>)
  {
    forall k :: 0 <= k < |history| ==> history[k].sequence == k + 1
  }

  /** The entries the store holds are numbered consecutively, the newest
      carrying the number of entries ever pushed, so the numbers strictly
      increase along the snapshot. */
  lemma WindowSequences(history: seq<LogEntry>, capacity: nat)
    requires Numbered(history)
    ensures var w := Window(history, capacity);
      && (forall i :: 0 <= i < |w| ==> w[i].sequence == |history| - |w| + i + 1)
      && (forall i, j :: 0 <= i < j < |w| ==> w[i].sequence < w[j].sequence)
  {
    var w := Window(history, capacity);
    assert forall i :: 0 <= i < |w| ==> w[i] == history[|history| - |w| + i];
  }

  /** `LogStore`: the retained entries, the capacity fixed at creation,
      and the next sequence number. */
  class LogStore {
    var entries: seq<LogEntry>
    const capacity: nat
    var counter: nat
    /** Every entry ever pushed, numbered. */
    ghost var history: seq<LogEntry>

    ghost predicate Valid()
      reads this
    {
      && capacity >= 1
      && counter == |history| + 1
      && Numbered(history)
      && entries == Window(history, capacity)
    }

    /** `LogStore::with_capacity`; the broadcast channel behind the store
        needs a capacity of at least one. */
    constructor WithCapacity(capacity: nat)
      requires capacity >= 1
      ensures Valid() && this.capacity == capacity && entries == [] && counter == 1 && history == []
    {
      this.capacity := capacity;
      entries := [];
      counter := 1;
      history := [];
    }

    /** `push`: the entry takes the next sequence number and is appended,
        after the oldest entry is dropped when the store is full. */
    method Push(entry: LogEntry)
      requires Valid()
      modifies this
      ensures Valid()
      ensures entries == Pushed(old(entries), capacity, entry.(sequence := old(counter)))
      ensures counter == old(counter) + 1
      ensures history == old(history) + [entry.(sequence := old(counter))]
    {
      var sequence := counter;
      counter := counter + 1;
      var numbered := entry.(sequence := sequence);
      PushedWindow(history, capacity, numbered);
      if |entries| >= capacity {
        entries := entries[1..];
      }
      entries := entries + [numbered];
      history := history + [numbered];
    }

    /** `snapshot`: the retained entries, oldest first. */
    method Snapshot() returns (r: seq<LogEntry>)
      requires Valid()
      ensures r == Window(history, capacity) && |r| <= capacity
    {
      r := entries;
    }

    /** `capacity`. */
    method Capacity() returns (r: nat)
      requires Valid()
      ensures r == capacity && r >= 1
    {
      r := capacity;
    }
  }

  /** The message a visitor ends up with: the value of the last field named
      "message", if any. */
  function MessageOf(recorded: seq<LogField>): Option<string>
  {
    if recorded == [] then None
    else if recorded[|recorded| - 1].name == "message" then Some(recorded[|recorded| - 1].value)
    else MessageOf(recorded[..|recorded| - 1])
  }

  /** The fields a visitor keeps: every field not named "message", in
      visit order. */
  function OtherFields(recorded: seq<LogField>): seq<LogField>
  {
    if recorded == [] then []
    else
      var kept := if recorded[|recorded| - 1].name == "message" then [] else [recorded[|recorded| - 1]];
      OtherFields(recorded[..|recorded| - 1]) + kept
  }

  /** There is a message exactly when some field is named "message", and
      it is the value of the last such field. */
  lemma MessageOfFacts(recorded: seq<LogField>)
    ensures MessageOf(recorded).None? <==> forall i :: 0 <= i < |recorded| ==> recorded[i].name != "message"
    ensures MessageOf(recorded).Some? ==>
      exists i :: 0 <= i < |recorded| && recorded[i] == LogField("message", MessageOf(recorded).value)
        && forall j :: i < j < |recorded| ==> recorded[j].name != "message"
  {
    MessageOfNone(recorded);
    if MessageOf(recorded).Some? {
      var i := LastMessageField(recorded);
    }
  }

  lemma {:induction false} MessageOfNone(recorded: seq<LogField>)
    ensures MessageOf(recorded).None? <==> forall i :: 0 <= i < |recorded| ==> recorded[i].name != "message"
  {
    if recorded != [] {
      var front := recorded[..|recorded| - 1];
      MessageOfNone(front);
      assert forall i :: 0 <= i < |front| ==> front[i] == recorded[i];
    }
  }

  /** The field the message comes from: the last one named "message". */
  lemma {:induction false} LastMessageField(recorded: seq<LogField>) returns (i: nat)
    requires MessageOf(recorded).Some?
    ensures i < |recorded| && recorded[i] == LogField("message", MessageOf(recorded).value)
    ensures forall j :: i < j < |recorded| ==> recorded[j].name != "message"
  {
    var last := recorded[|recorded| - 1];
    if last.name == "message" {
      i := |recorded| - 1;
    } else {
      var front := recorded[..|recorded| - 1];
      i := LastMessageField(front);
      assert recorded[i] == front[i];
      assert forall j :: i < j < |front| ==> recorded[j] == front[j];
    }
  }

  /** The kept fields are exactly the fields not named "message", and
      together with the message fields they account for every field. */
  lemma {:induction false} OtherFieldsFacts(recorded: seq<LogField>)
    ensures forall f :: f in OtherFields(recorded) <==> f in recorded && f.name != "message"
    ensures |OtherFields(recorded)| + MessageCount(recorded) == |recorded|
  {
    if recorded != [] {
      var front := recorded[..|recorded| - 1];
      OtherFieldsFacts(front);
      assert recorded == front + [recorded[|recorded| - 1]];
    }
  }

  function MessageCount(recorded: seq<LogField>): nat
  {
    if recorded == [] then 0
    else MessageCount(recorded[..|recorded| - 1]) + (if recorded[|recorded| - 1].name == "message" then 1 else 0)
  }

  /** `LogVisitor`: the message seen so far and the other fields. */
  class LogVisitor {
    var message: Option<string>
    var fields: seq<LogField>

    constructor ()
      ensures message.None? && fields == []
    {
      message := None;
      fields := [];
    }

    /** `record_str` and `record_debug`, the value already rendered: a
        field named "message" becomes the message, any other is kept. */
    method Record(name: string, value: string)
      modifies this
      ensures name == "message" ==> message == Some(value) && fields == old(fields)
      ensures name != "message" ==> message == old(message) && fields == old(fields) + [LogField(name, value)]
    {
      if name == "message" {
        message := Some(value);
      } else {
        fields := fields + [LogField(name, value)];
      }
    }
  }

  /** The entry `on_event` builds from an event's fields, before the store
      numbers it; an event without a message reads "(no message)". */
  function EntryOf(level: Level, target: string, recorded: seq<LogField>, timestamp: string): (e: LogEntry)
  {
    LogEntry(0, timestamp, level, target,
      match MessageOf(recorded)
      case None => "(no message)"
      case Some(m) => m,
      OtherFields(recorded))
  }

  /** `on_event`: each field is visited in order, then the entry is pushed.
      The clock reading is `timestamp`. */
  method OnEvent(store: LogStore, level: Level, target: string, recorded: seq<LogField>, timestamp: string)
    requires store.Valid()
    modifies store
    ensures store.Valid()
    ensures store.history == old(store.history) + [EntryOf(level, target, recorded, timestamp).(sequence := old(store.counter))]
  {
    var visitor := new LogVisitor();
    var i := 0;
    while i < |recorded|
      invariant 0 <= i <= |recorded|
      modifies visitor
      invariant visitor.message == MessageOf(recorded[..i])
      invariant visitor.fields == OtherFields(recorded[..i])
    {
      assert recorded[..i + 1][..i] == recorded[..i];
      visitor.Record(recorded[i].name, recorded[i].value);
      i := i + 1;
    }
    assert recorded[..i] == recorded;
    var message := if visitor.message.Some? then visitor.message.value else "(no message)";
    store.Push(LogEntry(0, timestamp, level, target, message, visitor.fields));
  }
}
