/** The Swiss Knife's shell: the network toggle, the tab bar, and the
    state of the Pubky facade that every tab talks through. */
module SwissApp {

  datatype NetworkMode = Mainnet | Testnet

  /** `NetworkMode::label`. */
  function NetworkLabel(mode: NetworkMode): (r: string)
    ensures r == "Mainnet" <==> mode == Mainnet
    ensures r == "Testnet" <==> mode == Testnet
  {
    match mode
    case Mainnet => "Mainnet"
    case Testnet => "Testnet"
  }

  /** The homeserver key a session form is pre-filled with on testnet. */
  const TestnetSessionHomeserver: string := "8pinxxgqs41n4aididenw5apqp1urfmzdztr8jt4abrkdn435ewo"

  datatype Tab = Keys | Tokens | Sessions | Pkdns | Auth | Storage | Social | Http

  /** `Tab::ALL`, in the order of the tab bar. */
  const AllTabs: seq<Tab> := [Keys, Tokens, Sessions, Pkdns, Auth, Storage, Social, Http]

  /** `Tab::label`. */
  function TabLabel(tab: Tab): string
  {
    match tab
    case Keys => "Keys"
    case Tokens => "Auth Tokens"
    case Sessions => "Sessions"
    case Pkdns => "PKDNS"
    case Auth => "Auth Flows"
    case Storage => "Storage"
    case Social => "Social"
    case Http => "Raw Requests"
  }

  /** The tab bar lists every tab exactly once, under eight distinct labels. */
  lemma AllTabsDistinctlyLabelled()
    ensures |AllTabs| == 8
    ensures forall t: Tab :: t in AllTabs
    ensures forall i, j :: 0 <= i < j < |AllTabs| ==> AllTabs[i] != AllTabs[j]
    ensures forall i, j :: 0 <= i < j < |AllTabs| ==> TabLabel(AllTabs[i]) != TabLabel(AllTabs[j])
  {
    forall t: Tab ensures t in AllTabs {
      match t
      case Keys => assert AllTabs[0] == t;
      case Tokens => assert AllTabs[1] == t;
      case Sessions => assert AllTabs[2] == t;
      case Pkdns => assert AllTabs[3] == t;
      case Auth => assert AllTabs[4] == t;
      case Storage => assert AllTabs[5] == t;
      case Social => assert AllTabs[6] == t;
      case Http => assert AllTabs[7] == t;
    }
  }

  /** `Tab::requires_session`: only the Social tab needs a session. */
  predicate RequiresSession(tab: Tab)
  {
    tab == Social
  }

  /** The tabs of `tabs`, in order, that may be shown. */
  function ShownTabs(tabs: seq<Tab>, hasSession: bool): seq<Tab>
  {
    if tabs == [] then []
    else
      var rest := ShownTabs(tabs[1..], hasSession);
      if !RequiresSession(tabs[0]) || hasSession then [tabs[0]] + rest else rest
  }

  /** The tab bar: `Tab::ALL` filtered by `!requires_session || has_session`. */
  function VisibleTabs(hasSession: bool): seq<Tab>
  {
    ShownTabs(AllTabs, hasSession)
  }

  /** With a session every tab shows; without one, every tab but Social,
      in the order of `Tab::ALL`. */
  lemma VisibleTabsBySession()
    ensures VisibleTabs(true) == AllTabs
    ensures VisibleTabs(false) == [Keys, Tokens, Sessions, Pkdns, Auth, Storage, Http]
    ensures forall t: Tab :: t in VisibleTabs(false) <==> !RequiresSession(t)
  {
    AllShownWithSession(AllTabs);
    ShownWithoutSession();
    var shown := [Keys, Tokens, Sessions, Pkdns, Auth, Storage, Http];
    forall t: Tab
      ensures t in shown <==> !RequiresSession(t)
    {
      match t
      case Keys => assert shown[0] == t;
      case Tokens => assert shown[1] == t;
      case Sessions => assert shown[2] == t;
      case Pkdns => assert shown[3] == t;
      case Auth => assert shown[4] == t;
      case Storage => assert shown[5] == t;
      case Social => assert forall i :: 0 <= i < |shown| ==> shown[i] != Social;
      case Http => assert shown[6] == t;
    }
  }

  lemma ShownWithoutSession()
    ensures VisibleTabs(false) == [Keys, Tokens, Sessions, Pkdns, Auth, Storage, Http]
  {
    var before, after := [Keys, Tokens, Sessions, Pkdns, Auth, Storage], [Http];
    assert AllTabs == before + ([Social] + after);
    SocialDropped(before, after);
    assert before + after == [Keys, Tokens, Sessions, Pkdns, Auth, Storage, Http];
  }

  /** Without a session, Social drops out from between tabs that need none. */
  lemma SocialDropped(before: seq<Tab>, after: seq<Tab>)
    requires forall i :: 0 <= i < |before| ==> !RequiresSession(before[i])
    requires forall i :: 0 <= i < |after| ==> !RequiresSession(after[i])
    ensures ShownTabs(before + ([Social] + after), false) == before + after
  {
    ShownAppend(before, [Social] + after, false);
    ShownCons(Social, after, false);
    NoSessionTabsShown(before);
    NoSessionTabsShown(after);
  }

  /** Filtering distributes over concatenation. */
  lemma {:induction false} ShownAppend(a: seq<Tab>, b: seq<Tab>, hasSession: bool)
    ensures ShownTabs(a + b, hasSession) == ShownTabs(a, hasSession) + ShownTabs(b, hasSession)
  {
    if a != [] {
      ShownAppend(a[1..], b, hasSession);
      assert (a + b)[0] == a[0] && (a + b)[1..] == a[1..] + b;
    } else {
      assert a + b == b;
    }
  }

  /** Tabs that need no session all show without one. */
  lemma {:induction false} NoSessionTabsShown(tabs: seq<Tab>)
    requires forall i :: 0 <= i < |tabs| ==> !RequiresSession(tabs[i])
    ensures ShownTabs(tabs, false) == tabs
  {
    if tabs != [] {
      NoSessionTabsShown(tabs[1..]);
      assert tabs == [tabs[0]] + tabs[1..];
    }
  }

  /** A tab is in the bar exactly when it needs no session or there is one. */
  lemma TabShownIff(t: Tab, hasSession: bool)
    ensures t in VisibleTabs(hasSession) <==> !RequiresSession(t) || hasSession
  {
    VisibleTabsBySession();
    if hasSession {
      assert t in AllTabs by {
        match t
        case Keys => assert AllTabs[0] == t;
        case Tokens => assert AllTabs[1] == t;
        case Sessions => assert AllTabs[2] == t;
        case Pkdns => assert AllTabs[3] == t;
        case Auth => assert AllTabs[4] == t;
        case Storage => assert AllTabs[5] == t;
        case Social => assert AllTabs[6] == t;
        case Http => assert AllTabs[7] == t;
      }
    }
  }

  lemma ShownCons(t: Tab, rest: seq<Tab>, hasSession: bool)
    ensures ShownTabs([t] + rest, hasSession)
            == (if !RequiresSession(t) || hasSession then [t] else []) + ShownTabs(rest, hasSession)
  {
    assert ([t] + rest)[1..] == rest;
  }

  lemma {:induction false} AllShownWithSession(tabs: seq<Tab>)
    ensures ShownTabs(tabs, true) == tabs
  {
    if tabs != [] {
      AllShownWithSession(tabs[1..]);
      assert tabs == [tabs[0]] + tabs[1..];
    }
  }

  datatype FacadeStatus = Loading | Ready | Failed(message: string)

  /** The facade cell: which network it was built (or is being built) for
      and how far that build got. */
  datatype FacadeState = FacadeState(network: NetworkMode, status: FacadeStatus)

  /** The early return of `queue_pubky_build`: an unforced request for the
      network the facade is already ready for, or already loading. */
  predicate BuildSkipped(state: FacadeState, target: NetworkMode, force: bool)
  {
    !force && state.network == target && !state.status.Failed?
  }

  /** The facade state once `queue_pubky_build` has returned. */
  function Queued(state: FacadeState, target: NetworkMode, force: bool): FacadeState
  {
    if BuildSkipped(state, target, force) then state else FacadeState(target, Loading)
  }

  /** The facade state once a build for `target` has finished, when
      `selected` is the network chosen by then. */
  function Completed(state: FacadeState, selected: NetworkMode, target: NetworkMode,
                     outcome: FacadeStatus): FacadeState
  {
    if selected == target then FacadeState(target, outcome) else state
  }

  /** Every request leaves the facade on the requested network, not failed,
      so repeating an unforced request starts no second build. */
  lemma QueueSettles(state: FacadeState, target: NetworkMode, force: bool)
    ensures Queued(state, target, force).network == target
    ensures !Queued(state, target, force).status.Failed?
    ensures BuildSkipped(Queued(state, target, force), target, false)
    ensures Queued(Queued(state, target, force), target, false) == Queued(state, target, force)
    ensures force || state.status.Failed? || state.network != target
            <==> Queued(state, target, force) == FacadeState(target, Loading)
                 && !BuildSkipped(state, target, force)
  {
  }

  /** A result that arrives after the user switched networks is dropped. */
  lemma StaleResultDropped(state: FacadeState, selected: NetworkMode, target: NetworkMode,
                           outcome: FacadeStatus)
    requires selected != target
    ensures Completed(state, selected, target, outcome) == state
  {
  }

  /** The app shell's signals. */
  class Shell {
    var activeTab: Tab
    var networkMode: NetworkMode
    var hasSession: bool
    var sessionHomeserver: string
    var facade: FacadeState
    /** The networks of the builds spawned so far, oldest first. */
    var spawned: seq<NetworkMode>
    var bootstrapped: bool

    /** The facade always describes the network the toggle shows. */
    ghost predicate Valid()
      reads this
    {
      facade.network == networkMode
    }

    constructor()
      ensures Valid()
      ensures activeTab == Keys && networkMode == Mainnet && !hasSession
      ensures sessionHomeserver == [] && facade == FacadeState(Mainnet, Loading)
      ensures spawned == [] && !bootstrapped
    {
      activeTab := Keys;
      networkMode := Mainnet;
      hasSession := false;
      sessionHomeserver := [];
      facade := FacadeState(Mainnet, Loading);
      spawned := [];
      bootstrapped := false;
    }

    /** `queue_pubky_build`: unless skipped, mark the facade as loading for
        `target` and spawn a build for it. */
    method QueuePubkyBuild(target: NetworkMode, force: bool)
      modifies this
      ensures facade == Queued(old(facade), target, force)
      ensures spawned == if BuildSkipped(old(facade), target, force) then old(spawned)
                         else old(spawned) + [target]
      ensures activeTab == old(activeTab) && networkMode == old(networkMode)
      ensures hasSession == old(hasSession) && sessionHomeserver == old(sessionHomeserver)
      ensures bootstrapped == old(bootstrapped)
    {
      if !force {
        if facade.network == target {
          match facade.status {
            case Ready => return;
            case Loading => return;
            case Failed(_) =>
          }
        }
      }
      facade := FacadeState(target, Loading);
      spawned := spawned + [target];
    }

    /** The first render queues a forced build for the selected network. */
    method Bootstrap()
      requires Valid()
      modifies this
      ensures Valid()
      ensures bootstrapped
      ensures !old(bootstrapped) ==>
                facade == FacadeState(networkMode, Loading) && spawned == old(spawned) + [networkMode]
      ensures old(bootstrapped) ==> facade == old(facade) && spawned == old(spawned)
      ensures networkMode == old(networkMode) && activeTab == old(activeTab)
    {
      if !bootstrapped {
        bootstrapped := true;
        QueuePubkyBuild(networkMode, true);
      }
    }

    /** A radio button of the network toggle: set the signal, then queue an
        unforced build. */
    method SelectNetwork(mode: NetworkMode)
      requires Valid()
      modifies this
      ensures Valid()
      ensures networkMode == mode
      ensures facade == Queued(old(facade), mode, false)
      ensures old(networkMode) == mode ==> facade == old(facade) || old(facade.status).Failed?
      ensures activeTab == old(activeTab) && hasSession == old(hasSession)
    {
      networkMode := mode;
      QueuePubkyBuild(mode, false);
    }

    /** The Retry button of the error overlay: a forced rebuild for the
        facade's own network. */
    method Retry()
      requires Valid()
      modifies this
      ensures Valid()
      ensures facade == FacadeState(old(facade.network), Loading)
      ensures spawned == old(spawned) + [old(facade.network)]
      ensures networkMode == old(networkMode)
    {
      QueuePubkyBuild(facade.network, true);
    }

    /** The end of a spawned build: its outcome replaces the facade only if
        the toggle still shows the network it was built for. */
    method CompleteBuild(target: NetworkMode, outcome: FacadeStatus)
      requires Valid()
      requires outcome != Loading
      modifies this
      ensures Valid()
      ensures facade == Completed(old(facade), networkMode, target, outcome)
      ensures networkMode == old(networkMode) && spawned == old(spawned)
    {
      if networkMode == target {
        facade := FacadeState(target, outcome);
      }
    }

    /** The render-time guard: a Social tab left open after the session
        ended falls back to Keys. */
    method ResetLockedTab()
      modifies this
      ensures activeTab == if old(activeTab) == Social && !hasSession then Keys else old(activeTab)
      ensures activeTab in VisibleTabs(hasSession)
      ensures hasSession == old(hasSession) && networkMode == old(networkMode)
      ensures facade == old(facade) && spawned == old(spawned)
    {
      if activeTab == Social && !hasSession {
        activeTab := Keys;
      }
      TabShownIff(activeTab, hasSession);
    }

    /** The network effect: on testnet the session form's homeserver is
        pre-filled with the fixed testnet key. */
    method PrefillSessionHomeserver()
      modifies this
      ensures sessionHomeserver == if networkMode == Testnet then TestnetSessionHomeserver
                                   else old(sessionHomeserver)
      ensures activeTab == old(activeTab) && networkMode == old(networkMode)
      ensures facade == old(facade) && spawned == old(spawned)
    {
      if networkMode == Testnet {
        sessionHomeserver := TestnetSessionHomeserver;
      }
    }
  }
}
