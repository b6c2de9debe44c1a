/** The copy the status panel shows for each lifecycle status. */
module HomeStatus {
  import opened Wrappers
  import opened HomeState

  datatype StatusCopy = StatusCopy(className: string, heading: string, summary: string)

  const RunningMainnetSummary: string := "Your Pubky agent is online and sharing data for your communities."
  const RunningTestnetSummary: string := "Static testnet services are online with fixed ports and credentials."

  /** `status_copy`: the card's CSS class, heading and summary. */
  function Copy(status: ServerStatus): StatusCopy
  {
    match status
    case Idle => StatusCopy("idle", "Homeserver is idle",
      "Select a storage directory and click start to bring your node online.")
    case Starting => StatusCopy("starting", "Starting homeserver",
      "Loading configuration, generating keys, and opening network ports…")
    case Running(info) => StatusCopy("running", "Homeserver is running",
      match info.network
      case Mainnet => RunningMainnetSummary
      case Testnet => RunningTestnetSummary)
    case Stopping => StatusCopy("stopping", "Stopping homeserver",
      "Shutting down services and closing sockets…")
    case Error(_) => StatusCopy("error", "Something went wrong",
      "We couldn't boot the homeserver with the current settings.")
  }

  /** Which variant a status is, forgetting its payload. */
  function Variant(status: ServerStatus): nat
  {
    match status
    case Idle => 0
    case Starting => 1
    case Running(_) => 2
    case Stopping => 3
    case Error(_) => 4
  }

  /** Each variant has its own CSS class: two statuses share a class
      exactly when they are the same variant. */
  lemma ClassNamesDistinguishVariants(s: ServerStatus, t: ServerStatus)
    ensures Copy(s).className == Copy(t).className <==> Variant(s) == Variant(t)
  {
    ClassNameNamesVariant(s);
    ClassNameNamesVariant(t);
    if Variant(s) == Variant(t) {
      assert Copy(s).className == ClassNames[Variant(s)];
    }
  }

  const ClassNames: seq<string> := ["idle", "starting", "running", "stopping", "error"]

  /** The variant a CSS class names. */
  function ClassVariant(className: string): nat
  {
    if className == "idle" then 0
    else if className == "starting" then 1
    else if className == "running" then 2
    else if className == "stopping" then 3
    else 4
  }

  lemma ClassNameNamesVariant(s: ServerStatus)
    ensures Variant(s) < 5 && Copy(s).className == ClassNames[Variant(s)]
    ensures ClassVariant(Copy(s).className) == Variant(s)
  {
    ClassVariantInverts();
    match s
    case Idle => assert Copy(s).className == "idle" == ClassNames[0];
    case Starting => assert Copy(s).className == "starting" == ClassNames[1];
    case Running(_) => assert Copy(s).className == "running" == ClassNames[2];
    case Stopping => assert Copy(s).className == "stopping" == ClassNames[3];
    case Error(_) => assert Copy(s).className == "error" == ClassNames[4];
  }

  /** `ClassVariant` reads each class name back to its position. */
  lemma ClassVariantInverts()
    ensures forall k :: 0 <= k < |ClassNames| ==> ClassVariant(ClassNames[k]) == k
  {
    var idle, starting, running, stopping, error := "idle", "starting", "running", "stopping", "error";
    assert idle != starting && idle != running && idle != stopping by {
      assert |idle| == 4;
    }
    assert starting != running && starting != stopping by {
      assert starting[2] == 'a' && stopping[2] == 'o' && |running| == 7;
    }
    assert error != idle && error != starting && error != running && error != stopping by {
      assert |error| == 5;
    }
    assert running != stopping by {
      assert |running| == 7 && |stopping| == 8;
    }
    assert ClassNames == [idle, starting, running, stopping, error];
  }

  /** The running card's copy depends on the network only, not on the
      node's key or URLs, and the two networks read differently. */
  lemma RunningCopyFollowsNetwork(a: ServerInfo, b: ServerInfo)
    ensures Copy(Running(a)) == Copy(Running(b)) <==> a.network == b.network
  {
    if a.network != b.network {
      assert |RunningMainnetSummary| != |RunningTestnetSummary|;
    }
  }

  /** The error card never shows the error message itself. */
  lemma ErrorCopyIsFixed(m1: string, m2: string)
    ensures Copy(Error(m1)) == Copy(Error(m2))
    ensures Copy(Error(m1)).className == "error"
  {
  }

  /** How the running card names the network, with an optional hint. */
  datatype NetworkDisplay = NetworkDisplay(text: string, hint: Option<string>)

  const TestnetHint: string := "Static ports: DHT 6881, pkarr 15411, HTTP relay 15412, admin 6288."

  /** `network_display`. */
  function DisplayNetwork(info: ServerInfo): (r: NetworkDisplay)
    ensures info.network == Mainnet ==> r == NetworkDisplay("Mainnet", None)
    ensures info.network == Testnet ==>
      r == NetworkDisplay(NetworkLabel(Testnet) + " · local relays & bootstrap", Some(TestnetHint))
    ensures r.hint.Some? <==> info.network == Testnet
  {
    var text := match info.network
      case Mainnet => NetworkLabel(info.network)
      case Testnet => NetworkLabel(info.network) + " · local relays & bootstrap";
    var hint := match info.network
      case Mainnet => None
      case Testnet => Some(TestnetHint);
    NetworkDisplay(text, hint)
  }

  datatype StatusDetails =
    | NoDetails
    | Message(text: string)
    | ErrorDetails(message: string)
    | RunningDetails(
        networkLabel: string,
        networkHint: Option<string>,
        adminUrl: string,
        icannUrl: string,
        pubkyUrl: string,
        publicKey: string)

  const StartingMessage: string := "This usually takes a few seconds – we wait for the admin and TLS endpoints to come online."
  const StoppingMessage: string := "Hold tight while we close the node. You can start it again once this completes."

  /** `status_details`: the extra block under the card. */
  function Details(status: ServerStatus): (r: StatusDetails)
    ensures r.NoDetails? <==> status.Idle?
    ensures r.Message? <==> status.Starting? || status.Stopping?
    ensures status.Starting? ==> r == Message(StartingMessage)
    ensures status.Stopping? ==> r == Message(StoppingMessage)
    ensures status.Error? ==> r == ErrorDetails(status.message)
    ensures status.Running? ==> (r.RunningDetails?
      && r.adminUrl == status.info.adminUrl
      && r.icannUrl == status.info.icannHttpUrl
      && r.pubkyUrl == status.info.pubkyUrl
      && r.publicKey == status.info.publicKey
      && r.networkLabel == DisplayNetwork(status.info).text
      && r.networkHint == DisplayNetwork(status.info).hint)
  {
    match status
    case Idle => NoDetails
    case Starting => Message(StartingMessage)
    case Stopping => Message(StoppingMessage)
    case Error(message) => ErrorDetails(message)
    case Running(info) =>
      var display := DisplayNetwork(info);
      RunningDetails(display.text, display.hint, info.adminUrl, info.icannHttpUrl, info.pubkyUrl, info.publicKey)
  }

  /** The details block loses nothing of a running node's info: the
      info can be read back from it. */
  lemma RunningDetailsDetermineInfo(a: ServerInfo, b: ServerInfo)
    ensures Details(Running(a)) == Details(Running(b)) <==> a == b
  {
    if a.network != b.network {
      assert Details(Running(a)).networkHint != Details(Running(b)).networkHint;
    }
  }
}
