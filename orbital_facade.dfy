/** The state of the Pubky client the Orbital Sovereigns screens share:
    still loading, ready, or failed with a message, for a chosen network. */
module OrbitalFacade {
  import opened Wrappers

  datatype NetworkMode = Mainnet | Testnet

  /** `NetworkMode::label`. */
  function NetworkLabel(mode: NetworkMode): (r: string)
    ensures r == "Mainnet" <==> mode == Mainnet
    ensures r == "Testnet" <==> mode == Testnet
  {
    match mode
    case Mainnet => "Mainnet"
    case Testnet => "Testnet"
  }

  /** A built Pubky client. */
  type PubkyClient(==)

  datatype FacadeStatus = Loading | Ready(client: PubkyClient) | Error(message: string)

  datatype FacadeState = FacadeState(network: NetworkMode, status: FacadeStatus)

  /** `PubkyFacadeState::loading`. */
  function LoadingState(network: NetworkMode): (s: FacadeState)
    ensures s.network == network && s.status.Loading?
  {
    FacadeState(network, Loading)
  }

  /** `PubkyFacadeState::ready`. */
  function ReadyState(network: NetworkMode, client: PubkyClient): (s: FacadeState)
    ensures s.network == network && s.status == Ready(client)
  {
    FacadeState(network, Ready(client))
  }

  /** `PubkyFacadeState::error`. */
  function ErrorState(network: NetworkMode, message: string): (s: FacadeState)
    ensures s.network == network && s.status == Error(message)
  {
    FacadeState(network, Error(message))
  }

  /** `facade`: the client, once it is ready. */
  function Facade(s: FacadeState): Option<PubkyClient>
  {
    match s.status
    case Ready(client) => Some(client)
    case _ => None
  }

  /** `is_loading`. */
  predicate IsLoading(s: FacadeState)
  {
    s.status.Loading?
  }

  /** `error_message`: the message of a failed build. */
  function ErrorMessage(s: FacadeState): Option<string>
  {
    match s.status
    case Error(message) => Some(message)
    case _ => None
  }

  function Count(b: bool): nat
  {
    if b then 1 else 0
  }

  /** The three accessors partition the states: exactly one of them
      reports something, and each reports what its constructor stored. */
  lemma AccessorsPartition(s: FacadeState)
    ensures Count(Facade(s).Some?) + Count(IsLoading(s)) + Count(ErrorMessage(s).Some?) == 1
    ensures Facade(s).Some? <==> s.status.Ready?
    ensures IsLoading(s) <==> s.status.Loading?
    ensures ErrorMessage(s).Some? <==> s.status.Error?
  {
  }

  /** Each constructor answers through its own accessor, with the value it
      was given, and keeps the network. */
  lemma ConstructorsRoundTrip(network: NetworkMode, client: PubkyClient, message: string)
    ensures IsLoading(LoadingState(network)) && Facade(LoadingState(network)).None?
    ensures Facade(ReadyState(network, client)) == Some(client) && !IsLoading(ReadyState(network, client))
    ensures ErrorMessage(ErrorState(network, message)) == Some(message) && Facade(ErrorState(network, message)).None?
    ensures LoadingState(network).network == network && ReadyState(network, client).network == network
    ensures ErrorState(network, message).network == network
  {
  }
}
