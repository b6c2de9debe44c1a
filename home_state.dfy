/** The portable homeserver's lifecycle status, the network it runs on,
    and the validation of a start request. */
module HomeState {
  import opened Wrappers
  import opened Strings

  datatype NetworkProfile = Mainnet | Testnet

  /** What the status panel shows about a running node. */
  datatype ServerInfo = ServerInfo(
    publicKey: string,
    adminUrl: string,
    icannHttpUrl: string,
    pubkyUrl: string,
    network: NetworkProfile)

  datatype ServerStatus = Idle | Starting | Running(info: ServerInfo) | Stopping | Error(message: string)

  /** `ServerStatus::default()`. */
  const DefaultStatus: ServerStatus := Idle

  /** `NetworkProfile::label`, also its `Display`. */
  function NetworkLabel(network: NetworkProfile): (r: string)
    ensures r == "Mainnet" <==> network == Mainnet
    ensures r == "Static Testnet" <==> network == Testnet
  {
    match network
    case Mainnet => "Mainnet"
    case Testnet => "Static Testnet"
  }

  /** What `start` is asked to boot: a mainnet node persisting under a
      directory, or the static testnet. */
  datatype StartSpec = MainnetSpec(dataDir: string) | TestnetSpec

  datatype StartValidationError = MissingDataDir

  /** The `Display` text of a start validation error. */
  function StartErrorMessage(e: StartValidationError): (r: string)
    ensures r == "Please provide a directory where the homeserver can persist its state."
  {
    match e
    case MissingDataDir => "Please provide a directory where the homeserver can persist its state."
  }

  /** `resolve_start_spec`: mainnet needs a non-blank directory, which is
      used trimmed; testnet needs nothing. */
  function ResolveStartSpec(network: NetworkProfile, dataDir: string): (r: Result<StartSpec, StartValidationError>)
    ensures network == Mainnet ==> (r.Err? <==> IsBlank(dataDir))
    ensures r.Err? ==> r.error == MissingDataDir
    ensures network == Mainnet && r.Ok? ==> r.value == MainnetSpec(Trim(dataDir))
    ensures network == Testnet ==> r == Ok(TestnetSpec)
  {
    match network
    case Mainnet =>
      var trimmed := Trim(dataDir);
      if trimmed == [] then Err(MissingDataDir) else Ok(MainnetSpec(trimmed))
    case Testnet => Ok(TestnetSpec)
  }

  /** A resolved mainnet directory is non-empty and has no surrounding
      whitespace, so resolving it again gives the same start request. */
  lemma ResolvedDirIsStable(dataDir: string)
    requires ResolveStartSpec(Mainnet, dataDir).Ok?
    ensures var spec := ResolveStartSpec(Mainnet, dataDir).value;
      spec.MainnetSpec? && spec.dataDir != [] && Trimmed(spec.dataDir)
      && ResolveStartSpec(Mainnet, spec.dataDir) == Ok(spec)
  {
    TrimIsTrimmedSlice(dataDir);
    TrimIdempotent(dataDir);
  }

  /** Two directory inputs that differ only in surrounding whitespace
      start the same mainnet node. */
  lemma {:induction false} PaddedDirSameSpec(w1: string, dir: string, w2: string)
    requires AllWhitespace(w1) && AllWhitespace(w2) && Trimmed(dir) && dir != []
    ensures ResolveStartSpec(Mainnet, w1 + dir + w2) == ResolveStartSpec(Mainnet, dir)
  {
    TrimPadded(w1, dir, w2);
    TrimOfTrimmed(dir);
  }
}
