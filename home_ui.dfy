/** The homeserver window: its signals, which buttons are enabled, and
    what each handler and each finishing task does to the signals. */
module HomeUi {
  import opened Wrappers
  import opened Strings
  import opened HomeState
  import opened HomeConfig
  import opened HomeTasks

  /** Start is disabled while a node starts, runs or stops. */
  predicate StartDisabled(status: ServerStatus)
  {
    status.Starting? || status.Running? || status.Stopping?
  }

  /** Stop is disabled while idle, starting or stopping. */
  predicate StopDisabled(status: ServerStatus)
  {
    status.Idle? || status.Starting? || status.Stopping?
  }

  /** A restart is blocked while a node starts or stops. */
  predicate RestartBlocked(status: ServerStatus)
  {
    status.Starting? || status.Stopping?
  }

  /** Save & Restart is disabled while a restart is blocked or there is
      nothing unsaved. */
  predicate SaveDisabled(status: ServerStatus, dirty: bool)
  {
    RestartBlocked(status) || !dirty
  }

  /** Which buttons each status leaves enabled: stop only with a running
      node or after an error, start only when idle or after an error, and
      both are disabled exactly while a restart is blocked. */
  lemma ButtonsByStatus(status: ServerStatus, dirty: bool)
    ensures !StopDisabled(status) <==> status.Running? || status.Error?
    ensures !StartDisabled(status) <==> status.Idle? || status.Error?
    ensures StartDisabled(status) && StopDisabled(status) <==> RestartBlocked(status)
    ensures !SaveDisabled(status, dirty) <==> dirty && (status.Idle? || status.Running? || status.Error?)
  {
  }

  /** The lifecycle signals agree with each other: a starting node has
      exactly its start task in flight, a stopping node exactly its
      shutdown, a settled node none; and the server slot is filled exactly
      while the status is `Running`. */
  predicate Consistent(l: Lifecycle)
  {
    && |l.pending| <= 1
    && (l.status.Starting? <==> |l.pending| == 1 && l.pending[0].Launch?)
    && (l.status.Stopping? <==> |l.pending| == 1 && l.pending[0].Shutdown?)
    && (l.running.Some? <==> l.status.Running?)
  }

  /** The values of the window's signals, and the data directory's files. */
  datatype AppState = AppState(
    dataDir: string,
    network: NetworkProfile,
    config: ConfigState,
    files: Files,
    life: Lifecycle)

  /** What can happen to the window: an input, a click, or a spawned task
      finishing. */
  datatype Event =
    | SelectNetwork(profile: NetworkProfile)
    | TypeDataDir(text: string)
    | EditForm(edit: FormEdit)
    | ClickReload
    | ClickSave(io: WriteFailure)
    | ClickStart
    | ClickStop
    | ShutdownDone(failure: Option<string>)
    | LaunchDone(outcome: Result<(RunningServer, ServerInfo), string>)

  /** A task can only finish while it is in flight. */
  predicate InFlight(app: AppState, ev: Event)
  {
    && (ev.ShutdownDone? ==> app.life.pending != [] && app.life.pending[0].Shutdown?)
    && (ev.LaunchDone? ==> app.life.pending != [] && app.life.pending[0].Launch?)
  }

  /** A disabled button delivers no click. */
  predicate Enabled(app: AppState, ev: Event)
  {
    && InFlight(app, ev)
    && (ev.ClickSave? ==> !SaveDisabled(app.life.status, app.config.dirty))
    && (ev.ClickStart? ==> !StartDisabled(app.life.status))
    && (ev.ClickStop? ==> !StopDisabled(app.life.status))
  }

  /** `on_reload`: a loaded form replaces the form and clears the dirty
      flag and feedback; a load error only sets the feedback. */
  function Reloaded(app: AppState, lib: Library): AppState
  {
    match LoadConfigForm(app.dataDir, app.files, lib)
    case Ok(form) => app.(config := ConfigState(form, false, None))
    case Err(e) => app.(config := app.config.(feedback := Some(PersistenceError(e))))
  }

  /** `on_save_and_restart`: save the form; then resolve the start request
      and, when it resolves, mark the form saved and stop the node with a
      start of the new request as the callback. */
  function SavedAndRestarted(app: AppState, io: WriteFailure, lib: Library): AppState
  {
    match Persist(app.dataDir, app.config.form, app.files, io, lib)
    case Err(e) => app.(config := app.config.(feedback := Some(PersistenceError(e))))
    case Ok(saved) =>
      var app := app.(files := saved.files);
      match ResolveStartSpec(app.network, app.dataDir)
      case Err(e) => app.(config := app.config.(feedback := Some(ValidationError(StartErrorMessage(e)))))
      case Ok(spec) =>
        app.(config := app.config.(dirty := false, feedback := Some(Saved)), life := Stop(app.life, Some(spec)))
  }

  /** `on_start`: an invalid request only sets the error status; a valid
      one empties the server slot and spawns a start. */
  function Started(app: AppState): AppState
  {
    match ResolveStartSpec(app.network, app.dataDir)
    case Err(e) => app.(life := app.life.(status := Error(StartErrorMessage(e))))
    case Ok(spec) => app.(life := SpawnStart(app.life.(running := None), spec))
  }

  function Step(app: AppState, ev: Event, lib: Library): AppState
    requires InFlight(app, ev)
  {
    match ev
    case SelectNetwork(profile) => app.(network := profile)
    case TypeDataDir(text) => app.(dataDir := text)
    case EditForm(edit) => app.(config := Modified(app.config, edit))
    case ClickReload => Reloaded(app, lib)
    case ClickSave(io) => SavedAndRestarted(app, io, lib)
    case ClickStart => Started(app)
    case ClickStop => app.(life := Stop(app.life, None))
    case ShutdownDone(failure) => app.(life := FinishShutdown(app.life, 0, failure))
    case LaunchDone(outcome) => app.(life := FinishLaunch(app.life, 0, outcome))
  }

  /** Reloading replaces the form and clears the flag and feedback when the
      load succeeds, and changes nothing but the feedback when it fails. */
  lemma ReloadEffect(app: AppState, lib: Library)
    ensures var r := Reloaded(app, lib);
      && r.life == app.life && r.files == app.files
      && (LoadConfigForm(app.dataDir, app.files, lib).Ok? ==>
            r.config == ConfigState(LoadConfigForm(app.dataDir, app.files, lib).value, false, None))
      && (LoadConfigForm(app.dataDir, app.files, lib).Err? ==>
            r.config.form == app.config.form && r.config.dirty == app.config.dirty
            && r.config.feedback == Some(PersistenceError(LoadConfigForm(app.dataDir, app.files, lib).error)))
  {
  }

  /** A form that saves always has a start request that resolves: saving
      already rejects a blank directory, the only thing mainnet needs, so
      Save & Restart never ends in a validation error. */
  lemma SavedDirResolves(app: AppState, io: WriteFailure, lib: Library)
    requires Persist(app.dataDir, app.config.form, app.files, io, lib).Ok?
    ensures ResolveStartSpec(app.network, app.dataDir).Ok?
    ensures !SavedAndRestarted(app, io, lib).config.feedback.Some?
      || !SavedAndRestarted(app, io, lib).config.feedback.value.ValidationError?
  {
  }

  /** Save & Restart: a failed save only reports it and restarts nothing;
      a successful one marks the form saved and stops the node with the
      new start request as its callback. */
  lemma SaveEffect(app: AppState, io: WriteFailure, lib: Library)
    ensures var saved := Persist(app.dataDir, app.config.form, app.files, io, lib);
      var r := SavedAndRestarted(app, io, lib);
      && (saved.Err? ==> r == app.(config := app.config.(feedback := Some(PersistenceError(saved.error)))))
      && (saved.Ok? ==>
            && r.dataDir == app.dataDir && r.network == app.network
            && r.files == saved.value.files
            && r.config == app.config.(dirty := false, feedback := Some(Saved))
            && r.life == Stop(app.life, Some(ResolveStartSpec(app.network, app.dataDir).value)))
  {
    if Persist(app.dataDir, app.config.form, app.files, io, lib).Ok? {
      SavedDirResolves(app, io, lib);
    }
  }

  /** Starting with an invalid request sets the error status with the
      message and spawns nothing; a valid one spawns exactly one start. */
  lemma StartEffect(app: AppState)
    ensures var spec := ResolveStartSpec(app.network, app.dataDir);
      var r := Started(app);
      && (spec.Err? ==> r.life == Lifecycle(Error(StartErrorMessage(spec.error)), app.life.running, app.life.pending))
      && (spec.Ok? ==> r.life == Lifecycle(Starting, None, app.life.pending + [Launch(spec.value)]))
      && r.config == app.config && r.files == app.files
  {
  }

  /** Every enabled event keeps the lifecycle signals consistent. */
  lemma StepKeepsConsistent(app: AppState, ev: Event, lib: Library)
    requires Consistent(app.life) && Enabled(app, ev)
    ensures Consistent(Step(app, ev, lib).life)
  {
    var l := app.life;
    match ev
    case ClickSave(io) =>
      var saved := Persist(app.dataDir, app.config.form, app.files, io, lib);
      if saved.Ok? {
        SavedDirResolves(app, io, lib);
        var spec := ResolveStartSpec(app.network, app.dataDir).value;
        SettledOrActive(l, Some(spec));
      }
    case ClickStart =>
      assert l.pending == [];
    case ClickStop =>
      SettledOrActive(l, None);
    case ShutdownDone(failure) =>
      assert Without(l.pending, 0) == [];
    case LaunchDone(outcome) =>
      assert Without(l.pending, 0) == [];
    case _ =>
  }

  /** Clicking an enabled Save & Restart is the save-and-restart step,
      and keeps consistency. */
  lemma SaveStep(app: AppState, io: WriteFailure, lib: Library)
    requires Consistent(app.life) && Enabled(app, ClickSave(io))
    ensures Step(app, ClickSave(io), lib) == SavedAndRestarted(app, io, lib)
    ensures Consistent(SavedAndRestarted(app, io, lib).life)
  {
    StepKeepsConsistent(app, ClickSave(io), lib);
  }

  /** A stop the buttons allow keeps the lifecycle consistent. */
  lemma SettledOrActive(l: Lifecycle, thenStart: Option<StartSpec>)
    requires Consistent(l) && !RestartBlocked(l.status)
    ensures Consistent(Stop(l, thenStart))
  {
    assert l.pending == [];
    if ShouldStop(l.status) {
      StopWhenActive(l, thenStart);
    } else {
      StopWhenSettled(l, thenStart);
    }
  }

  /** The window's signals. */
  class HomeApp {
    var dataDir: string
    var network: NetworkProfile
    var config: ConfigState
    var files: Files
    var status: ServerStatus
    var running: Option<RunningServer>
    var pending: seq<Task>
    const lib: Library

    function State(): AppState
      reads this
    {
      AppState(dataDir, network, config, files, Lifecycle(status, running, pending))
    }

    predicate Valid()
      reads this
    {
      Consistent(State().life)
    }

    /** `App`: the default directory's configuration loaded, idle, on
        mainnet. */
    constructor (initialDir: string, disk: Files, library: Library)
      ensures State() == AppState(initialDir, Mainnet, ConfigStateFromDir(initialDir, disk, library), disk,
                                  Lifecycle(Idle, None, []))
      ensures lib == library && Valid()
    {
      dataDir := initialDir;
      network := Mainnet;
      config := ConfigStateFromDir(initialDir, disk, library);
      files := disk;
      status := DefaultStatus;
      running := None;
      pending := [];
      lib := library;
    }

    method OnSelectNetwork(profile: NetworkProfile)
      requires Valid()
      modifies this
      ensures State() == Step(old(State()), SelectNetwork(profile), lib) && Valid()
    {
      network := profile;
    }

    method OnDataDirInput(text: string)
      requires Valid()
      modifies this
      ensures State() == Step(old(State()), TypeDataDir(text), lib) && Valid()
    {
      dataDir := text;
    }

    /** `modify_config_form` for one of the form's inputs. */
    method ModifyConfigForm(edit: FormEdit)
      requires Valid()
      modifies this
      ensures State() == Step(old(State()), EditForm(edit), lib) && Valid()
    {
      config := config.(form := Edited(config.form, edit));
      config := config.(dirty := true);
      config := config.(feedback := None);
    }

    method OnReload()
      requires Valid()
      modifies this
      ensures State() == Step(old(State()), ClickReload, lib) && Valid()
    {
      var loaded := LoadConfigForm(dataDir, files, lib);
      match loaded
      case Ok(form) =>
        config := config.(form := form);
        config := config.(dirty := false);
        config := config.(feedback := None);
      case Err(e) =>
        config := config.(feedback := Some(PersistenceError(e)));
    }

    method OnSaveAndRestart(io: WriteFailure)
      requires Valid() && !SaveDisabled(status, config.dirty)
      modifies this
      ensures State() == Step(old(State()), ClickSave(io), lib) && Valid()
    {
      ghost var app := State();
      SaveStep(app, io, lib);
      SaveEffect(app, io, lib);
      ghost var target := SavedAndRestarted(app, io, lib);
      var formSnapshot := config.form;
      var saved := Persist(dataDir, formSnapshot, files, io, lib);
      if saved.Err? {
        config := config.(feedback := Some(PersistenceError(saved.error)));
        return;
      }
      files := saved.value.files;
      // The save accepted the directory, so the start request resolves
      // and the handler's validation-error branch is never taken.
      SavedDirResolves(app, io, lib);
      var startSpec := ResolveStartSpec(network, dataDir).value;
      config := config.(dirty := false);
      config := config.(feedback := Some(Saved));
      StopCurrentServer(Some(startSpec));
      assert State() == AppState(target.dataDir, target.network, target.config, target.files, target.life);
    }

    method OnStart()
      requires Valid() && !StartDisabled(status)
      modifies this
      ensures State() == Step(old(State()), ClickStart, lib) && Valid()
    {
      StepKeepsConsistent(State(), ClickStart, lib);
      var startSpec := ResolveStartSpec(network, dataDir);
      if startSpec.Err? {
        status := Error(StartErrorMessage(startSpec.error));
        return;
      }
      running := None;
      var next := SpawnStart(Lifecycle(status, running, pending), startSpec.value);
      status, pending := next.status, next.pending;
    }

    method OnStop()
      requires Valid() && !StopDisabled(status)
      modifies this
      ensures State() == Step(old(State()), ClickStop, lib) && Valid()
    {
      StepKeepsConsistent(State(), ClickStop, lib);
      StopCurrentServer(None);
    }

    /** `stop_current_server` on the window's status, server slot and
        task queue; the form, the files and the selections stay. */
    method StopCurrentServer(thenStart: Option<StartSpec>)
      modifies this
      ensures Lifecycle(status, running, pending) == Stop(old(Lifecycle(status, running, pending)), thenStart)
      ensures dataDir == old(dataDir) && network == old(network) && config == old(config) && files == old(files)
    {
      var next := Stop(Lifecycle(status, running, pending), thenStart);
      status, running, pending := next.status, next.running, next.pending;
    }

    /** The shutdown in flight finishing. */
    method FinishStop(failure: Option<string>)
      requires Valid() && pending != [] && pending[0].Shutdown?
      modifies this
      ensures State() == Step(old(State()), ShutdownDone(failure), lib) && Valid()
    {
      StepKeepsConsistent(State(), ShutdownDone(failure), lib);
      var next := FinishShutdown(Lifecycle(status, running, pending), 0, failure);
      status, running, pending := next.status, next.running, next.pending;
    }

    /** The start in flight finishing. */
    method FinishStart(outcome: Result<(RunningServer, ServerInfo), string>)
      requires Valid() && pending != [] && pending[0].Launch?
      modifies this
      ensures State() == Step(old(State()), LaunchDone(outcome), lib) && Valid()
    {
      StepKeepsConsistent(State(), LaunchDone(outcome), lib);
      pending := Without(pending, 0);
      match outcome
      case Ok((server, info)) =>
        running := Some(server);
        status := Running(info);
      case Err(e) =>
        status := Error(e);
    }
  }
}
