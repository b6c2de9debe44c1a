/** Starting and stopping the homeserver: the status and server-slot
    updates made at once, and those made when the spawned task finishes. */
module HomeTasks {
  import opened Wrappers
  import opened Strings
  import opened HomeState

  /** A running node held in the server slot: the homeserver suite or the
      static testnet, named by the handle the slot shares. */
  datatype RunningServer = MainnetSuite(handle: nat) | TestnetNetwork(handle: nat)

  /** A spawned task that has not finished: a shutdown of the server taken
      out of the slot, with the start its callback runs afterwards; or a
      start. */
  datatype Task = Shutdown(server: Option<RunningServer>, thenStart: Option<StartSpec>) | Launch(spec: StartSpec)

  /** The status signal, the server slot, and the tasks in flight. */
  datatype Lifecycle = Lifecycle(status: ServerStatus, running: Option<RunningServer>, pending: seq<Task>)

  /** The number of start tasks among `tasks`. */
  function Launches(tasks: seq<Task>): nat
  {
    if tasks == [] then 0 else Launches(tasks[..|tasks| - 1]) + (if tasks[|tasks| - 1].Launch? then 1 else 0)
  }

  lemma {:induction false} LaunchesAppend(tasks: seq<Task>, more: seq<Task>)
    ensures Launches(tasks + more) == Launches(tasks) + Launches(more)
    decreases |more|
  {
    if more == [] {
      assert tasks + more == tasks;
    } else {
      var front := more[..|more| - 1];
      assert (tasks + more)[..|tasks + more| - 1] == tasks + front;
      LaunchesAppend(tasks, front);
    }
  }

  lemma {:induction false} LaunchesRemove(tasks: seq<Task>, i: nat)
    requires i < |tasks|
    ensures Launches(tasks) == Launches(tasks[..i] + tasks[i + 1..]) + (if tasks[i].Launch? then 1 else 0)
  {
    assert tasks == tasks[..i] + [tasks[i]] + tasks[i + 1..];
    LaunchesAppend(tasks[..i] + [tasks[i]], tasks[i + 1..]);
    LaunchesAppend(tasks[..i], [tasks[i]]);
    LaunchesAppend(tasks[..i], tasks[i + 1..]);
    assert [tasks[i]][..0] == [];
  }

  /** `spawn_start_task`, the part that runs at once: the status becomes
      `Starting` and a start task is spawned. */
  function SpawnStart(l: Lifecycle, spec: StartSpec): (r: Lifecycle)
    ensures r.status == Starting && r.running == l.running
    ensures Launches(r.pending) == Launches(l.pending) + 1
  {
    LaunchesAppend(l.pending, [Launch(spec)]);
    assert [Launch(spec)][..0] == [];
    Lifecycle(Starting, l.running, l.pending + [Launch(spec)])
  }

  /** Whether a stop request has a node, or a node on its way up or down,
      to shut down. */
  predicate ShouldStop(status: ServerStatus)
  {
    status.Running? || status.Starting? || status.Stopping?
  }

  /** `stop_current_server`, the part that runs at once. With nothing to
      stop, the slot is cleared, the status becomes `Idle` and the
      callback (a start, when there is one) runs at once; otherwise the
      status becomes `Stopping` and the server is taken out of its slot
      into a shutdown task that carries the callback. */
  function Stop(l: Lifecycle, thenStart: Option<StartSpec>): Lifecycle
  {
    if !ShouldStop(l.status) then
      var idle := Lifecycle(Idle, None, l.pending);
      if thenStart.Some? then SpawnStart(idle, thenStart.value) else idle
    else Lifecycle(Stopping, None, l.pending + [Shutdown(l.running, thenStart)])
  }

  /** The pending tasks without the one at `i`. */
  function Without(tasks: seq<Task>, i: nat): seq<Task>
    requires i < |tasks|
  {
    tasks[..i] + tasks[i + 1..]
  }

  /** The shutdown task at `i` finishing, `failure` being the error the
      shutdown reported, if any. A failed shutdown of a server sets the
      error status and drops the callback; otherwise the status becomes
      `Idle` and the callback runs. */
  function FinishShutdown(l: Lifecycle, i: nat, failure: Option<string>): Lifecycle
    requires i < |l.pending| && l.pending[i].Shutdown?
  {
    var task := l.pending[i];
    var rest := Without(l.pending, i);
    if task.server.Some? && failure.Some? then
      Lifecycle(Error("Failed to stop the homeserver cleanly: " + failure.value), l.running, rest)
    else
      var idle := Lifecycle(Idle, l.running, rest);
      if task.thenStart.Some? then SpawnStart(idle, task.thenStart.value) else idle
  }

  /** The start task at `i` finishing with the started server and its
      info, or with the error's text. */
  function FinishLaunch(l: Lifecycle, i: nat, outcome: Result<(RunningServer, ServerInfo), string>): (r: Lifecycle)
    requires i < |l.pending| && l.pending[i].Launch?
    ensures r.pending == Without(l.pending, i)
    ensures outcome.Ok? ==> r.status == Running(outcome.value.1) && r.running == Some(outcome.value.0)
    ensures outcome.Err? ==> r.status == Error(outcome.error) && r.running == l.running
  {
    var rest := Without(l.pending, i);
    match outcome
    case Ok((server, info)) => Lifecycle(Running(info), Some(server), rest)
    case Err(e) => Lifecycle(Error(e), l.running, rest)
  }

  /** Stopping from `Idle` or `Error` empties the slot, settles at `Idle`
      and runs the callback at once, exactly once: when there is one it
      spawns exactly one start and the status moves on to `Starting`. */
  lemma StopWhenSettled(l: Lifecycle, thenStart: Option<StartSpec>)
    requires l.status.Idle? || l.status.Error?
    ensures var r := Stop(l, thenStart);
      && r.running.None?
      && (thenStart.None? ==> r == Lifecycle(Idle, None, l.pending))
      && (thenStart.Some? ==> r.status == Starting && r.pending == l.pending + [Launch(thenStart.value)])
      && Launches(r.pending) == Launches(l.pending) + (if thenStart.Some? then 1 else 0)
  {
  }

  /** Stopping a node that runs, starts or stops sets `Stopping` at once,
      takes the server out of its slot and runs no callback yet. */
  lemma StopWhenActive(l: Lifecycle, thenStart: Option<StartSpec>)
    requires ShouldStop(l.status)
    ensures var r := Stop(l, thenStart);
      && r.status == Stopping && r.running.None?
      && r.pending == l.pending + [Shutdown(l.running, thenStart)]
      && Launches(r.pending) == Launches(l.pending)
  {
    LaunchesAppend(l.pending, [Shutdown(l.running, thenStart)]);
    assert [Shutdown(l.running, thenStart)][..0] == [];
  }

  /** A shutdown that succeeds settles at `Idle` and runs its callback
      exactly once; one that fails sets the error status, keeps the
      message, and never runs the callback. */
  lemma ShutdownOutcome(l: Lifecycle, i: nat, failure: Option<string>)
    requires i < |l.pending| && l.pending[i].Shutdown?
    ensures var task := l.pending[i];
      var r := FinishShutdown(l, i, failure);
      var failed := task.server.Some? && failure.Some?;
      && (failed ==> r.status == Error("Failed to stop the homeserver cleanly: " + failure.value)
                     && Launches(r.pending) == Launches(l.pending))
      && (!failed && task.thenStart.None? ==> r.status == Idle && Launches(r.pending) == Launches(l.pending))
      && (!failed && task.thenStart.Some? ==> r.status == Starting && Launches(r.pending) == Launches(l.pending) + 1)
      && r.running == l.running
  {
    LaunchesRemove(l.pending, i);
  }

  /** A stop with a callback, followed by the end of the shutdown it
      spawned, spawns the callback's start exactly when nothing failed. */
  lemma StopThenFinish(l: Lifecycle, spec: StartSpec, failure: Option<string>)
    requires ShouldStop(l.status)
    ensures var stopping := Stop(l, Some(spec));
      var i := |stopping.pending| - 1;
      && i < |stopping.pending| && stopping.pending[i].Shutdown?
      && var r := FinishShutdown(stopping, i, failure);
         && Launches(r.pending) == Launches(l.pending) + (if l.running.Some? && failure.Some? then 0 else 1)
         && r.running.None?
  {
    var stopping := Stop(l, Some(spec));
    StopWhenActive(l, Some(spec));
    ShutdownOutcome(stopping, |stopping.pending| - 1, failure);
    LaunchesRemove(stopping.pending, |stopping.pending| - 1);
  }

  /** `server_info_from_suite`: the admin URL is "http://" followed by the
      admin listen socket's text; the rest is copied. */
  function ServerInfoFromSuite(publicKey: string, adminSocket: string, icannUrl: string, pubkyUrl: string, network: NetworkProfile): (r: ServerInfo)
    ensures StartsWith(r.adminUrl, "http://") && r.adminUrl[|"http://"|..] == adminSocket
    ensures r.publicKey == publicKey && r.icannHttpUrl == icannUrl && r.pubkyUrl == pubkyUrl && r.network == network
  {
    ServerInfo(publicKey, "http://" + adminSocket, icannUrl, pubkyUrl, network)
  }
}
