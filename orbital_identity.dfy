/** The commander identity: a display label and an optional keypair, with
    the base64 recovery hint and the time of the last key change. */
module OrbitalIdentity {
  import opened Wrappers
  import opened Strings
  import opened OrbitalTime
  import Base64

  /** A commander as other players see them. */
  datatype CommanderProfile = CommanderProfile(name: string, publicKey: string, homeserver: Option<string>)

  /** A Pubky keypair; the key arithmetic is supplied by `KeyLib`. */
  type Keypair(==)

  /** The keypair operations the identity uses: the public key's text,
      the 32-byte secret, and the keypair derived from a secret. */
  datatype KeyLib = KeyLib(
    publicKey: Keypair -> string,
    secretKey: Keypair -> seq<Base64.byte>,
    fromSecret: seq<Base64.byte> -> Keypair)

  /** `CommanderProfile::new`. */
  function NewProfile(text: string, kp: Keypair, homeserver: Option<string>, keys: KeyLib): (p: CommanderProfile)
    ensures p.name == text && p.publicKey == keys.publicKey(kp) && p.homeserver == homeserver
  {
    CommanderProfile(text, keys.publicKey(kp), homeserver)
  }

  const DefaultLabel: string := "Unnamed Commander"
  const InvalidBase64: string := "Secret key must be valid base64"
  const WrongLength: string := "Secret key must contain exactly 32 bytes"

  /** The recovery hint of a keypair: its secret in standard base64. */
  function HintOf(kp: Keypair, keys: KeyLib): string
  {
    Base64.Encode(keys.secretKey(kp))
  }

  /** What `import_secret_key` decides about its input: the keypair of the
      decoded secret, or why the input is refused. */
  function ImportOutcome(secretText: string, keys: KeyLib): Result<Keypair, string>
  {
    match Base64.Decode(Trim(secretText))
    case None => Err(InvalidBase64)
    case Some(bytes) =>
      if |bytes| != 32 then Err(WrongLength) else Ok(keys.fromSecret(bytes))
  }

  /** An import succeeds exactly when the trimmed text is the canonical
      base64 encoding of 32 bytes, and then yields their keypair. */
  lemma ImportOutcomeFacts(secretText: string, keys: KeyLib)
    ensures var r := ImportOutcome(secretText, keys);
      && (r.Ok? <==> exists b :: |b| == 32 && Base64.Encode(b) == Trim(secretText))
      && (r.Ok? ==> r.value == keys.fromSecret(Base64.Decode(Trim(secretText)).value))
      && (r.Err? ==> r.error == InvalidBase64 || r.error == WrongLength)
      && (r.Err? && r.error == InvalidBase64 <==> Base64.Decode(Trim(secretText)).None?)
  {
    var t := Trim(secretText);
    match Base64.Decode(t)
    case None =>
      forall b | |b| == 32
        ensures Base64.Encode(b) != t
      {
        Base64.DecodeIffEncode(t, b);
      }
    case Some(bytes) =>
      Base64.DecodeIffEncode(t, bytes);
      forall b | Base64.Encode(b) == t
        ensures b == bytes
      {
        Base64.DecodeIffEncode(t, b);
      }
  }

  /** When the secret of the derived keypair is the imported secret, the
      exported key and the recovery hint after an import are the trimmed
      input itself. */
  lemma ImportThenExport(secretText: string, keys: KeyLib)
    requires ImportOutcome(secretText, keys).Ok?
    requires var bytes := Base64.Decode(Trim(secretText)).value;
      keys.secretKey(keys.fromSecret(bytes)) == bytes
    ensures HintOf(ImportOutcome(secretText, keys).value, keys) == Trim(secretText)
  {
    Base64.DecodeIffEncode(Trim(secretText), Base64.Decode(Trim(secretText)).value);
  }

  /** `CommanderIdentity`. */
  class CommanderIdentity {
    var name: string
    var keypair: Option<Keypair>
    var recoveryHint: Option<string>
    var lastRotated: Option<Instant>

    /** `Default`: an unnamed commander without keys. */
    constructor ()
      ensures name == DefaultLabel && keypair.None? && recoveryHint.None? && lastRotated.None?
    {
      name := DefaultLabel;
      keypair := None;
      recoveryHint := None;
      lastRotated := None;
    }

    /** `set_label`: only the label changes. */
    method SetLabel(text: string)
      modifies this
      ensures name == text
      ensures keypair == old(keypair) && recoveryHint == old(recoveryHint) && lastRotated == old(lastRotated)
    {
      name := text;
    }

    /** `set_keypair`: the keypair is stored with its recovery hint and the
        time of the change. */
    method SetKeypair(kp: Keypair, keys: KeyLib, now: Instant)
      modifies this
      ensures keypair == Some(kp) && recoveryHint == Some(HintOf(kp, keys)) && lastRotated == Some(now)
      ensures name == old(name)
      ensures ExportSecretKey(keys) == recoveryHint
    {
      recoveryHint := Some(Base64.Encode(keys.secretKey(kp)));
      lastRotated := Some(now);
      keypair := Some(kp);
    }

    /** `clear_keypair`: the keypair goes; the hint and the rotation time
        stay. */
    method ClearKeypair()
      modifies this
      ensures keypair.None?
      ensures name == old(name) && recoveryHint == old(recoveryHint) && lastRotated == old(lastRotated)
    {
      keypair := None;
    }

    /** `generate`, the random keypair being `drawn`. */
    method Generate(drawn: Keypair, keys: KeyLib, now: Instant) returns (kp: Keypair)
      modifies this
      ensures kp == drawn
      ensures keypair == Some(drawn) && recoveryHint == Some(HintOf(drawn, keys)) && lastRotated == Some(now)
      ensures name == old(name)
    {
      SetKeypair(drawn, keys, now);
      kp := drawn;
    }

    /** `import_secret_key`: a refused input leaves the identity as it
        was; an accepted one installs the derived keypair. */
    method ImportSecretKey(secretText: string, keys: KeyLib, now: Instant) returns (r: Result<Keypair, string>)
      modifies this
      ensures r == ImportOutcome(secretText, keys)
      ensures r.Err? ==>
        name == old(name) && keypair == old(keypair) && recoveryHint == old(recoveryHint) && lastRotated == old(lastRotated)
      ensures r.Ok? ==>
        keypair == Some(r.value) && recoveryHint == Some(HintOf(r.value, keys)) && lastRotated == Some(now) && name == old(name)
    {
      var decoded := Base64.Decode(Trim(secretText));
      if decoded.None? {
        return Err(InvalidBase64);
      }
      var bytes := decoded.value;
      if |bytes| != 32 {
        return Err(WrongLength);
      }
      var kp := keys.fromSecret(bytes);
      SetKeypair(kp, keys, now);
      r := Ok(kp);
    }

    /** `public_profile`: present exactly when there is a keypair, under
        the current label. */
    function PublicProfile(homeserver: Option<string>, keys: KeyLib): (p: Option<CommanderProfile>)
      reads this
      ensures p.Some? <==> keypair.Some?
      ensures p.Some? ==> p.value == CommanderProfile(name, keys.publicKey(keypair.value), homeserver)
    {
      match keypair
      case None => None
      case Some(kp) => Some(NewProfile(name, kp, homeserver, keys))
    }

    /** `export_secret_key`: present exactly when there is a keypair. */
    function ExportSecretKey(keys: KeyLib): (s: Option<string>)
      reads this
      ensures s.Some? <==> keypair.Some?
      ensures s.Some? ==> s.value == HintOf(keypair.value, keys)
    {
      match keypair
      case None => None
      case Some(kp) => Some(Base64.Encode(keys.secretKey(kp)))
    }
  }
}
