/** The homeserver's editable configuration: the form the settings panel
    edits, its mapping to and from `config.toml`, and saving it. */
module HomeConfig {
  import opened Wrappers
  import opened Strings
  import SwissTransport
  import SwissRecovery

  datatype SignupMode = TokenRequired | Open

  /** The level type of the homeserver's logging section. */
  type Level(==, !new)

  /** The fields of the logging section other than its level. */
  type LoggingRest(==, !new)

  /** A validated ICANN domain name. */
  type DomainName(==, !new)

  /** The settings of `config.toml` the form does not edit. */
  type OtherSettings(==, !new)

  datatype Logging = Logging(level: Level, rest: LoggingRest)

  /** The value of a `ConfigToml`. */
  datatype Config = Config(
    signupMode: SignupMode,
    pubkySocket: SwissTransport.SocketAddr,
    icannSocket: SwissTransport.SocketAddr,
    adminSocket: SwissTransport.SocketAddr,
    adminPassword: string,
    publicIp: SwissTransport.IpAddr,
    publicTlsPort: Option<nat>,
    publicHttpPort: Option<nat>,
    icannDomain: Option<DomainName>,
    logging: Option<Logging>,
    other: OtherSettings)

  /** The library parsers (their error values as `Display` text) and
      printers the form relies on, the TOML renderer and parser of
      `config.toml`, and the homeserver's defaults. */
  datatype Library = Library(
    parseSocket: string -> Result<SwissTransport.SocketAddr, string>,
    showSocket: SwissTransport.SocketAddr -> string,
    parseIp: string -> Result<SwissTransport.IpAddr, string>,
    showIp: SwissTransport.IpAddr -> string,
    parseDomain: string -> Result<DomainName, string>,
    showDomain: DomainName -> string,
    parseLevel: string -> Result<Level, string>,
    showLevel: Level -> string,
    renderToml: Config -> Result<string, string>,
    parseToml: string -> Result<Config, string>,
    defaultLogging: Logging,
    defaultConfig: Config)

  /** The form: every editable setting as the text in its input. */
  datatype ConfigForm = ConfigForm(
    signupMode: SignupMode,
    pubkySocket: string,
    icannSocket: string,
    adminSocket: string,
    adminPassword: string,
    publicIp: string,
    publicTlsPort: string,
    publicHttpPort: string,
    icannDomain: string,
    loggingLevel: string)

  function PortText(port: Option<nat>): string
  {
    match port
    case None => ""
    case Some(n) => NatToString(n)
  }

  /** `ConfigForm::from_config`. */
  function FromConfig(c: Config, lib: Library): ConfigForm
  {
    ConfigForm(
      c.signupMode,
      lib.showSocket(c.pubkySocket),
      lib.showSocket(c.icannSocket),
      lib.showSocket(c.adminSocket),
      c.adminPassword,
      lib.showIp(c.publicIp),
      PortText(c.publicTlsPort),
      PortText(c.publicHttpPort),
      match c.icannDomain
      case None => ""
      case Some(d) => lib.showDomain(d),
      match c.logging
      case None => ""
      case Some(l) => lib.showLevel(l.level))
  }

  /** `ConfigForm::default`: the form of the default configuration. */
  function DefaultForm(lib: Library): ConfigForm
  {
    FromConfig(lib.defaultConfig, lib)
  }

  /** `parse_socket`. */
  function ParseSocket(fieldLabel: string, raw: string, lib: Library): Result<SwissTransport.SocketAddr, string>
  {
    match lib.parseSocket(Trim(raw))
    case Ok(s) => Ok(s)
    case Err(e) => Err(fieldLabel + " must be in host:port format (" + e + ").")
  }

  /** `parse_ip`. */
  function ParseIp(fieldLabel: string, raw: string, lib: Library): Result<SwissTransport.IpAddr, string>
  {
    match lib.parseIp(Trim(raw))
    case Ok(ip) => Ok(ip)
    case Err(e) => Err(fieldLabel + " is not a valid IP address (" + e + ").")
  }

  /** The largest `u16`. */
  const U16Max: nat := 65535

  /** The `Display` text of the error `str::parse::<u16>` gives on `s`. */
  function IntErrorText(s: string): string
  {
    var digits := if |s| > 0 && s[0] == '+' then s[1..] else s;
    if s == [] then "cannot parse integer from empty string"
    else if digits != [] && AllDigits(digits) then "number too large to fit in target type"
    else "invalid digit found in string"
  }

  /** `parse_optional_port`: blank means no port, anything else must be
      a `u16`. */
  function ParseOptionalPort(fieldLabel: string, raw: string): (r: Result<Option<nat>, string>)
    ensures IsBlank(raw) ==> r == Ok(None)
    ensures r.Ok? && r.value.Some? ==> r.value.value <= U16Max && !IsBlank(raw)
    ensures r.Err? <==> !IsBlank(raw) && ParseUnsigned(Trim(raw), U16Max).None?
  {
    var trimmed := Trim(raw);
    if trimmed == [] then Ok(None)
    else match ParseUnsigned(trimmed, U16Max)
      case Some(p) => Ok(Some(p))
      case None => Err(fieldLabel + " must be a port number (" + IntErrorText(trimmed) + ").")
  }

  /** A rejected port is reported with a message that says "port". */
  lemma PortErrorMentionsPort(fieldLabel: string, raw: string)
    requires ParseOptionalPort(fieldLabel, raw).Err?
    ensures Contains(ParseOptionalPort(fieldLabel, raw).error, "port")
  {
    var detail := IntErrorText(Trim(raw));
    assert ParseOptionalPort(fieldLabel, raw).error == fieldLabel + " must be a port number (" + detail + ").";
    PortMessageMentionsPort(fieldLabel, detail);
  }

  lemma PortMessageMentionsPort(fieldLabel: string, detail: string)
    ensures Contains(fieldLabel + " must be a port number (" + detail + ").", "port")
  {
    var rest := " number (" + detail + ").";
    assert fieldLabel + " must be a port number (" + detail + ")." == (fieldLabel + " must be a ") + "port" + rest;
    ContainsConcat(fieldLabel + " must be a ", "port", rest);
  }

  /** Digits have no surrounding whitespace. */
  lemma NatTextIsTrimmed(n: nat)
    ensures Trimmed(NatToString(n)) && !IsBlank(NatToString(n))
  {
    var s := NatToString(n);
    assert IsDigit(s[0]) && IsDigit(s[|s| - 1]);
    TrimOfTrimmed(s);
  }

  /** A port in range is read back from its decimal text. */
  lemma PortTextReadsBack(fieldLabel: string, port: Option<nat>)
    requires port.Some? ==> port.value <= U16Max
    ensures ParseOptionalPort(fieldLabel, PortText(port)) == Ok(port)
  {
    if port.Some? {
      NatTextIsTrimmed(port.value);
      TrimOfTrimmed(NatToString(port.value));
      ParseUnsignedOfNat(port.value, U16Max);
    }
  }

  /** `parse_optional_domain`. */
  function ParseOptionalDomain(raw: string, lib: Library): (r: Result<Option<DomainName>, string>)
    ensures IsBlank(raw) ==> r == Ok(None)
    ensures r.Ok? && r.value.Some? ==> lib.parseDomain(Trim(raw)) == Ok(r.value.value)
    ensures r.Err? <==> !IsBlank(raw) && lib.parseDomain(Trim(raw)).Err?
  {
    var trimmed := Trim(raw);
    if trimmed == [] then Ok(None)
    else match lib.parseDomain(trimmed)
      case Ok(d) => Ok(Some(d))
      case Err(e) => Err("Invalid domain '" + trimmed + "': " + e)
  }

  /** `parse_logging_level`: a blank level resets an existing section's
      level to the default and keeps a missing section missing; a level
      that parses always yields a section, the existing one or the
      default, carrying that level. */
  function ParseLoggingLevel(raw: string, existing: Option<Logging>, lib: Library): (r: Result<Option<Logging>, string>)
    ensures IsBlank(raw) ==> r.Ok? && (r.value.None? <==> existing.None?)
    ensures IsBlank(raw) && existing.Some? ==>
      r.value == Some(Logging(lib.defaultLogging.level, existing.value.rest))
    ensures !IsBlank(raw) && lib.parseLevel(Trim(raw)).Ok? ==>
      r.Ok? && r.value.Some?
      && r.value.value.level == lib.parseLevel(Trim(raw)).value
      && r.value.value.rest == (if existing.Some? then existing.value.rest else lib.defaultLogging.rest)
    ensures r.Err? <==> !IsBlank(raw) && lib.parseLevel(Trim(raw)).Err?
  {
    var trimmed := Trim(raw);
    if trimmed == [] then
      Ok(match existing
        case None => None
        case Some(logging) => Some(logging.(level := lib.defaultLogging.level)))
    else match lib.parseLevel(trimmed)
      case Err(e) => Err("Invalid logging level '" + trimmed + "': " + e + ". Use trace, debug, info, warn, or error.")
      case Ok(level) =>
        var logging := if existing.Some? then existing.value else lib.defaultLogging;
        Ok(Some(logging.(level := level)))
  }

  /** A configuration after the form was applied to it, and the error that
      stopped the application, if any. */
  datatype Applied = Applied(config: Config, error: Option<string>)

  const PubkySocketLabel: string := "Pubky TLS listen socket"
  const IcannSocketLabel: string := "ICANN HTTP listen socket"
  const AdminSocketLabel: string := "Admin listen socket"
  const PublicIpLabel: string := "Public IP"
  const TlsPortLabel: string := "Public Pubky TLS port"
  const HttpPortLabel: string := "Public ICANN HTTP port"

  /** The position, in the order `apply_config_form` assigns fields
      (signup mode 0, the three sockets 1 to 3, the password 4, the public
      IP 5, the two ports 6 and 7, the domain 8, logging 9), of the first
      field whose text does not parse; 10 when every field parses. */
  function FailedStep(form: ConfigForm, lib: Library): nat
  {
    if ParseSocket(PubkySocketLabel, form.pubkySocket, lib).Err? then 1
    else if ParseSocket(IcannSocketLabel, form.icannSocket, lib).Err? then 2
    else if ParseSocket(AdminSocketLabel, form.adminSocket, lib).Err? then 3
    else if ParseIp(PublicIpLabel, form.publicIp, lib).Err? then 5
    else if ParseOptionalPort(TlsPortLabel, form.publicTlsPort).Err? then 6
    else if ParseOptionalPort(HttpPortLabel, form.publicHttpPort).Err? then 7
    else if ParseOptionalDomain(form.icannDomain, lib).Err? then 8
    else if !IsBlank(form.loggingLevel) && lib.parseLevel(Trim(form.loggingLevel)).Err? then 9
    else 10
  }

  /** `apply_config_form` on a configuration value. Fields are assigned
      in a fixed order; the first text that does not parse stops it, and
      the fields assigned before stay assigned. */
  function ApplyForm(form: ConfigForm, c: Config, lib: Library): (r: Applied)
    ensures var k := FailedStep(form, lib);
      && (r.error.None? <==> k == 10)
      && r.config.signupMode == form.signupMode
      && r.config.other == c.other
      && (k > 1 ==> r.config.pubkySocket == ParseSocket(PubkySocketLabel, form.pubkySocket, lib).value)
      && (k <= 1 ==> r.config.pubkySocket == c.pubkySocket)
      && (k > 2 ==> r.config.icannSocket == ParseSocket(IcannSocketLabel, form.icannSocket, lib).value)
      && (k <= 2 ==> r.config.icannSocket == c.icannSocket)
      && (k > 3 ==> r.config.adminSocket == ParseSocket(AdminSocketLabel, form.adminSocket, lib).value)
      && (k <= 3 ==> r.config.adminSocket == c.adminSocket)
      && (k > 4 ==> r.config.adminPassword == form.adminPassword)
      && (k <= 4 ==> r.config.adminPassword == c.adminPassword)
      && (k > 5 ==> r.config.publicIp == ParseIp(PublicIpLabel, form.publicIp, lib).value)
      && (k <= 5 ==> r.config.publicIp == c.publicIp)
      && (k > 6 ==> r.config.publicTlsPort == ParseOptionalPort(TlsPortLabel, form.publicTlsPort).value)
      && (k <= 6 ==> r.config.publicTlsPort == c.publicTlsPort)
      && (k > 7 ==> r.config.publicHttpPort == ParseOptionalPort(HttpPortLabel, form.publicHttpPort).value)
      && (k <= 7 ==> r.config.publicHttpPort == c.publicHttpPort)
      && (k > 8 ==> r.config.icannDomain == ParseOptionalDomain(form.icannDomain, lib).value)
      && (k <= 8 ==> r.config.icannDomain == c.icannDomain)
      && (k > 9 ==> r.config.logging == ParseLoggingLevel(form.loggingLevel, c.logging, lib).value)
      && (k <= 9 ==> r.config.logging == c.logging)
  {
    var c := c.(signupMode := form.signupMode);
    match ParseSocket(PubkySocketLabel, form.pubkySocket, lib)
    case Err(e) => Applied(c, Some(e))
    case Ok(pubky) =>
      var c := c.(pubkySocket := pubky);
      match ParseSocket(IcannSocketLabel, form.icannSocket, lib)
      case Err(e) => Applied(c, Some(e))
      case Ok(icann) =>
        var c := c.(icannSocket := icann);
        match ParseSocket(AdminSocketLabel, form.adminSocket, lib)
        case Err(e) => Applied(c, Some(e))
        case Ok(admin) =>
          var c := c.(adminSocket := admin, adminPassword := form.adminPassword);
          match ParseIp(PublicIpLabel, form.publicIp, lib)
          case Err(e) => Applied(c, Some(e))
          case Ok(ip) =>
            var c := c.(publicIp := ip);
            match ParseOptionalPort(TlsPortLabel, form.publicTlsPort)
            case Err(e) => Applied(c, Some(e))
            case Ok(tls) =>
              var c := c.(publicTlsPort := tls);
              match ParseOptionalPort(HttpPortLabel, form.publicHttpPort)
              case Err(e) => Applied(c, Some(e))
              case Ok(http) =>
                var c := c.(publicHttpPort := http);
                match ParseOptionalDomain(form.icannDomain, lib)
                case Err(e) => Applied(c, Some(e))
                case Ok(domain) =>
                  var c := c.(icannDomain := domain);
                  match ParseLoggingLevel(form.loggingLevel, c.logging, lib)
                  case Err(e) => Applied(c, Some(e))
                  case Ok(logging) => Applied(c.(logging := logging), None)
  }

  /** The configuration struct `apply_config_form` updates in place. */
  class ConfigToml {
    var signupMode: SignupMode
    var pubkySocket: SwissTransport.SocketAddr
    var icannSocket: SwissTransport.SocketAddr
    var adminSocket: SwissTransport.SocketAddr
    var adminPassword: string
    var publicIp: SwissTransport.IpAddr
    var publicTlsPort: Option<nat>
    var publicHttpPort: Option<nat>
    var icannDomain: Option<DomainName>
    var logging: Option<Logging>
    var other: OtherSettings

    function Value(): Config
      reads this
    {
      Config(signupMode, pubkySocket, icannSocket, adminSocket, adminPassword, publicIp,
        publicTlsPort, publicHttpPort, icannDomain, logging, other)
    }

    constructor (c: Config)
      ensures Value() == c
    {
      signupMode := c.signupMode;
      pubkySocket := c.pubkySocket;
      icannSocket := c.icannSocket;
      adminSocket := c.adminSocket;
      adminPassword := c.adminPassword;
      publicIp := c.publicIp;
      publicTlsPort := c.publicTlsPort;
      publicHttpPort := c.publicHttpPort;
      icannDomain := c.icannDomain;
      logging := c.logging;
      other := c.other;
    }
  }

  /** `apply_config_form`: assigns the form's fields to `config` one by one
      and returns at the first that does not parse. */
  method ApplyConfigForm(form: ConfigForm, config: ConfigToml, lib: Library) returns (r: Result<(), string>)
    modifies config
    ensures config.Value() == ApplyForm(form, old(config.Value()), lib).config
    ensures r.Err? <==> ApplyForm(form, old(config.Value()), lib).error.Some?
    ensures r.Err? ==> Some(r.error) == ApplyForm(form, old(config.Value()), lib).error
  {
    // `c` follows the configuration value through the same steps.
    ghost var c := config.Value().(signupMode := form.signupMode);
    config.signupMode := form.signupMode;
    var pubky := ParseSocket(PubkySocketLabel, form.pubkySocket, lib);
    if pubky.Err? {
      assert config.Value() == c;
      return Err(pubky.error);
    }
    config.pubkySocket := pubky.value;
    c := c.(pubkySocket := pubky.value);
    var icann := ParseSocket(IcannSocketLabel, form.icannSocket, lib);
    if icann.Err? {
      assert config.Value() == c;
      return Err(icann.error);
    }
    config.icannSocket := icann.value;
    c := c.(icannSocket := icann.value);
    var admin := ParseSocket(AdminSocketLabel, form.adminSocket, lib);
    if admin.Err? {
      assert config.Value() == c;
      return Err(admin.error);
    }
    config.adminSocket := admin.value;
    config.adminPassword := form.adminPassword;
    c := c.(adminSocket := admin.value, adminPassword := form.adminPassword);
    var ip := ParseIp(PublicIpLabel, form.publicIp, lib);
    if ip.Err? {
      assert config.Value() == c;
      return Err(ip.error);
    }
    config.publicIp := ip.value;
    c := c.(publicIp := ip.value);
    var tls := ParseOptionalPort(TlsPortLabel, form.publicTlsPort);
    if tls.Err? {
      assert config.Value() == c;
      return Err(tls.error);
    }
    config.publicTlsPort := tls.value;
    c := c.(publicTlsPort := tls.value);
    var http := ParseOptionalPort(HttpPortLabel, form.publicHttpPort);
    if http.Err? {
      assert config.Value() == c;
      return Err(http.error);
    }
    config.publicHttpPort := http.value;
    c := c.(publicHttpPort := http.value);
    var domain := ParseOptionalDomain(form.icannDomain, lib);
    if domain.Err? {
      assert config.Value() == c;
      return Err(domain.error);
    }
    config.icannDomain := domain.value;
    c := c.(icannDomain := domain.value);
    var logging := ParseLoggingLevel(form.loggingLevel, config.logging, lib);
    if logging.Err? {
      assert config.Value() == c;
      return Err(logging.error);
    }
    config.logging := logging.value;
    c := c.(logging := logging.value);
    assert config.Value() == c;
    return Ok(());
  }

  /** A form that applied cleanly applies to its own result without
      changing it. */
  lemma ApplyFormIdempotent(form: ConfigForm, c: Config, lib: Library)
    requires ApplyForm(form, c, lib).error.None?
    ensures ApplyForm(form, ApplyForm(form, c, lib).config, lib) == ApplyForm(form, c, lib)
  {
    var once := ApplyForm(form, c, lib).config;
    var twice := ApplyForm(form, once, lib).config;
    assert once.logging == ParseLoggingLevel(form.loggingLevel, c.logging, lib).value;
    assert twice.logging == ParseLoggingLevel(form.loggingLevel, once.logging, lib).value;
    assert twice.logging == once.logging;
  }

  /** The settings of `c` read back from their text: the library parsers
      invert the printers, ports fit in a `u16`, and a domain or level
      prints as non-blank text. */
  predicate ReadsBack(c: Config, lib: Library)
  {
    && lib.parseSocket(Trim(lib.showSocket(c.pubkySocket))) == Ok(c.pubkySocket)
    && lib.parseSocket(Trim(lib.showSocket(c.icannSocket))) == Ok(c.icannSocket)
    && lib.parseSocket(Trim(lib.showSocket(c.adminSocket))) == Ok(c.adminSocket)
    && lib.parseIp(Trim(lib.showIp(c.publicIp))) == Ok(c.publicIp)
    && (c.publicTlsPort.Some? ==> c.publicTlsPort.value <= U16Max)
    && (c.publicHttpPort.Some? ==> c.publicHttpPort.value <= U16Max)
    && (c.icannDomain.Some? ==>
          !IsBlank(lib.showDomain(c.icannDomain.value))
          && lib.parseDomain(Trim(lib.showDomain(c.icannDomain.value))) == Ok(c.icannDomain.value))
    && (c.logging.Some? ==>
          !IsBlank(lib.showLevel(c.logging.value.level))
          && lib.parseLevel(Trim(lib.showLevel(c.logging.value.level))) == Ok(c.logging.value.level))
  }

  /** The logging section `target` ends up with when the form of a
      configuration whose section is `source` is applied to it. */
  function CarriedLogging(source: Option<Logging>, target: Option<Logging>, lib: Library): Option<Logging>
  {
    match source
    case None =>
      (match target
       case None => None
       case Some(t) => Some(t.(level := lib.defaultLogging.level)))
    case Some(s) => Some((if target.Some? then target.value else lib.defaultLogging).(level := s.level))
  }

  /** Loading a configuration into the form and applying the form to any
      configuration copies every edited setting, the signup mode, the
      password and the public IP among them; only the logging section's
      fields other than the level and the settings the form does not edit
      come from the target. */
  lemma FormRoundTrip(c: Config, target: Config, lib: Library)
    requires ReadsBack(c, lib)
    ensures ApplyForm(FromConfig(c, lib), target, lib)
      == Applied(c.(logging := CarriedLogging(c.logging, target.logging, lib), other := target.other), None)
  {
    var form := FromConfig(c, lib);
    PortTextReadsBack(TlsPortLabel, c.publicTlsPort);
    PortTextReadsBack(HttpPortLabel, c.publicHttpPort);
    if c.icannDomain.None? {
      assert IsBlank(form.icannDomain);
    }
    if c.logging.None? {
      assert IsBlank(form.loggingLevel);
    }
    assert FailedStep(form, lib) == 10;
  }

  /** Applying a configuration's own form to it changes nothing. */
  lemma OwnFormLeavesConfig(c: Config, lib: Library)
    requires ReadsBack(c, lib)
    ensures ApplyForm(FromConfig(c, lib), c, lib) == Applied(c, None)
  {
    FormRoundTrip(c, c, lib);
    assert CarriedLogging(c.logging, c.logging, lib) == c.logging;
  }

  /** The contents of the data directory: the text of each `config.toml`
      present. */
  type Files = map<string, string>

  /** `toml::to_string_pretty` and `ConfigToml::from_file` are inverse: a
      rendered configuration parses back to itself. */
  ghost predicate TomlRoundTrips(lib: Library)
  {
    forall c :: lib.renderToml(c).Ok? ==> lib.parseToml(lib.renderToml(c).value) == Ok(c)
  }

  function ConfigPath(dir: string): string
  {
    SwissRecovery.JoinPath(dir, "config.toml")
  }

  datatype PersistOutcome = Updated | Unchanged

  /** Which of the file-system steps that write the file fails, if any. */
  datatype WriteFailure = NoFailure | CreateDirFails | WriteFails

  /** What saving returns, with the directory's contents after it. */
  datatype Persisted = Persisted(outcome: PersistOutcome, files: Files)

  const BlankDirMessage: string := "Please provide a directory where we can write config.toml."

  /** The configuration saving starts from: the file's, when it is
      present and parses, or the default. */
  function Baseline(path: string, files: Files, lib: Library): Config
    requires path in files ==> lib.parseToml(files[path]).Ok?
  {
    if path in files then lib.parseToml(files[path]).value else lib.defaultConfig
  }

  /** `persist_config_form`: applies the form to the existing configuration
      (or the default) under the trimmed directory, and writes its TOML
      rendering back unless an existing file would not change. */
  function Persist(dataDir: string, form: ConfigForm, files: Files, io: WriteFailure, lib: Library): (r: Result<Persisted, string>)
    ensures IsBlank(dataDir) ==> r == Err(BlankDirMessage)
    ensures r.Ok? && r.value.outcome == Unchanged ==>
      r.value.files == files && ConfigPath(Trim(dataDir)) in files
    ensures r.Ok? && r.value.outcome == Updated ==>
      var path := ConfigPath(Trim(dataDir));
      && (path in files ==> lib.parseToml(files[path]).Ok?)
      && ApplyForm(form, Baseline(path, files, lib), lib).error.None?
      && path in r.value.files
      && r.value.files == files[path := r.value.files[path]]
      && lib.renderToml(ApplyForm(form, Baseline(path, files, lib), lib).config) == Ok(r.value.files[path])
  {
    var trimmed := Trim(dataDir);
    if trimmed == [] then Err(BlankDirMessage)
    else
      var path := ConfigPath(trimmed);
      if path in files && lib.parseToml(files[path]).Err? then
        Err("Failed to parse " + path + ": " + lib.parseToml(files[path]).error)
      else
        var base := Baseline(path, files, lib);
        var applied := ApplyForm(form, base, lib);
        if applied.error.Some? then Err(applied.error.value)
        else if path in files && base == applied.config then Ok(Persisted(Unchanged, files))
        else if io == CreateDirFails then Err("Failed to create data directory at " + trimmed)
        else match lib.renderToml(applied.config)
          case Err(_) => Err("Failed to render config as TOML text")
          case Ok(text) =>
            if io == WriteFails then Err("Failed to write " + path)
            else Ok(Persisted(Updated, files[path := text]))
  }

  /** An existing file is reported unchanged exactly when it parses and
      the form applies to it cleanly without changing it. */
  lemma PersistUnchangedIff(dataDir: string, form: ConfigForm, files: Files, io: WriteFailure, lib: Library)
    requires !IsBlank(dataDir)
    ensures var path := ConfigPath(Trim(dataDir));
      (Persist(dataDir, form, files, io, lib) == Ok(Persisted(Unchanged, files)))
      <==> (path in files && lib.parseToml(files[path]).Ok?
            && ApplyForm(form, lib.parseToml(files[path]).value, lib) == Applied(lib.parseToml(files[path]).value, None))
  {
  }

  /** After a successful save the directory holds a file that parses to
      a configuration the saved form leaves unchanged, so saving the same
      form again reports `Unchanged` and writes nothing. */
  lemma SaveTwiceUnchanged(dataDir: string, form: ConfigForm, files: Files, io1: WriteFailure, io2: WriteFailure, lib: Library)
    requires TomlRoundTrips(lib)
    requires Persist(dataDir, form, files, io1, lib).Ok?
    ensures var saved := Persist(dataDir, form, files, io1, lib).value.files;
      Persist(dataDir, form, saved, io2, lib) == Ok(Persisted(Unchanged, saved))
  {
    var path := ConfigPath(Trim(dataDir));
    ApplyFormIdempotent(form, Baseline(path, files, lib), lib);
  }

  /** `load_config_form_from_dir` as written: blank gives the default
      form, a missing file the default form, a file that does not parse
      an error; a non-blank directory is joined untrimmed. */
  function LoadConfigForm(dataDir: string, files: Files, lib: Library): (r: Result<ConfigForm, string>)
    ensures IsBlank(dataDir) ==> r == Ok(DefaultForm(lib))
    ensures ConfigPath(dataDir) !in files ==> r == Ok(DefaultForm(lib))
    ensures r.Err? <==> !IsBlank(dataDir) && ConfigPath(dataDir) in files
                        && lib.parseToml(files[ConfigPath(dataDir)]).Err?
    ensures !IsBlank(dataDir) && ConfigPath(dataDir) in files && lib.parseToml(files[ConfigPath(dataDir)]).Ok? ==>
      r == Ok(FromConfig(lib.parseToml(files[ConfigPath(dataDir)]).value, lib))
  {
    if IsBlank(dataDir) then Ok(DefaultForm(lib))
    else
      var path := ConfigPath(dataDir);
      if path !in files then Ok(DefaultForm(lib))
      else match lib.parseToml(files[path])
        case Ok(c) => Ok(FromConfig(c, lib))
        case Err(e) => Err("Failed to read " + path + ": " + e)
  }

  /** Saving under a directory typed with a trailing space writes the
      trimmed path, but the loader as written reads another file, so the
      saved settings do not come back. */
  lemma ReloadAsWrittenMissesSavedFile(form: ConfigForm, lib: Library)
    requires ApplyForm(form, lib.defaultConfig, lib).error.None?
    requires lib.renderToml(ApplyForm(form, lib.defaultConfig, lib).config).Ok?
    requires FromConfig(ApplyForm(form, lib.defaultConfig, lib).config, lib) != DefaultForm(lib)
    ensures var saved := Persist("/srv/pubky ", form, map[], NoFailure, lib);
      saved.Ok?
      && LoadConfigForm("/srv/pubky ", saved.value.files, lib)
         != Ok(FromConfig(ApplyForm(form, lib.defaultConfig, lib).config, lib))
  {
    var dir := "/srv/pubky ";
    PaddedDirPaths();
    var text := lib.renderToml(ApplyForm(form, lib.defaultConfig, lib).config).value;
    var saved := Persist(dir, form, map[], NoFailure, lib);
    assert saved == Ok(Persisted(Updated, map[ConfigPath("/srv/pubky") := text]));
    assert ConfigPath(dir) !in saved.value.files;
    assert LoadConfigForm(dir, saved.value.files, lib) == Ok(DefaultForm(lib));
  }

  /** The directory "/srv/pubky " trims to "/srv/pubky", and the two give
      different `config.toml` paths. */
  lemma PaddedDirPaths()
    ensures !IsBlank("/srv/pubky ") && Trim("/srv/pubky ") == "/srv/pubky"
    ensures ConfigPath("/srv/pubky ") != ConfigPath("/srv/pubky")
  {
    var dir := "/srv/pubky ";
    assert IsWhitespace(dir[|dir| - 1]);
    assert Trimmed("/srv/pubky");
    TrimPadded([], "/srv/pubky", " ");
    assert [] + "/srv/pubky" + " " == dir;
    assert ConfigPath("/srv/pubky") == "/srv/pubky/config.toml";
    assert ConfigPath(dir) == "/srv/pubky /config.toml";
    assert |ConfigPath(dir)| != |ConfigPath("/srv/pubky")|;
  }

  /** `load_config_form_from_dir` corrected to read the file under the
      trimmed directory, where saving writes it: blank gives the default
      form, a missing file the default form, a file that does not parse
      an error. */
  function LoadConfigFormTrimmed(dataDir: string, files: Files, lib: Library): (r: Result<ConfigForm, string>)
    ensures IsBlank(dataDir) ==> r == Ok(DefaultForm(lib))
    ensures ConfigPath(Trim(dataDir)) !in files ==> r == Ok(DefaultForm(lib))
    ensures r.Err? <==> !IsBlank(dataDir) && ConfigPath(Trim(dataDir)) in files
                        && lib.parseToml(files[ConfigPath(Trim(dataDir))]).Err?
  {
    if IsBlank(dataDir) then Ok(DefaultForm(lib))
    else
      var path := ConfigPath(Trim(dataDir));
      if path !in files then Ok(DefaultForm(lib))
      else match lib.parseToml(files[path])
        case Ok(c) => Ok(FromConfig(c, lib))
        case Err(e) => Err("Failed to read " + path + ": " + e)
  }

  /** After a successful save, the saved file parses, reloading shows the
      form of the saved configuration, and that configuration is one the
      saved form leaves unchanged. */
  lemma ReloadAfterSave(dataDir: string, form: ConfigForm, files: Files, io: WriteFailure, lib: Library)
    requires TomlRoundTrips(lib)
    requires Persist(dataDir, form, files, io, lib).Ok?
    ensures var saved := Persist(dataDir, form, files, io, lib).value.files;
      var path := ConfigPath(Trim(dataDir));
      && path in saved && lib.parseToml(saved[path]).Ok?
      && ApplyForm(form, lib.parseToml(saved[path]).value, lib) == Applied(lib.parseToml(saved[path]).value, None)
      && LoadConfigFormTrimmed(dataDir, saved, lib) == Ok(FromConfig(lib.parseToml(saved[path]).value, lib))
  {
    var path := ConfigPath(Trim(dataDir));
    ApplyFormIdempotent(form, Baseline(path, files, lib), lib);
  }

  /** Saving the form just loaded from a directory reports `Unchanged`. */
  lemma SaveLoadedFormUnchanged(dataDir: string, files: Files, io: WriteFailure, lib: Library)
    requires !IsBlank(dataDir)
    requires ConfigPath(Trim(dataDir)) in files && lib.parseToml(files[ConfigPath(Trim(dataDir))]).Ok?
    requires ReadsBack(lib.parseToml(files[ConfigPath(Trim(dataDir))]).value, lib)
    ensures LoadConfigFormTrimmed(dataDir, files, lib).Ok?
    ensures Persist(dataDir, LoadConfigFormTrimmed(dataDir, files, lib).value, files, io, lib) == Ok(Persisted(Unchanged, files))
  {
    var c := lib.parseToml(files[ConfigPath(Trim(dataDir))]).value;
    OwnFormLeavesConfig(c, lib);
  }

  /** The program's loader and the corrected one read the same file, and
      so agree, for a directory typed without surrounding whitespace. */
  lemma LoadersAgreeWhenTrimmed(dataDir: string, files: Files, lib: Library)
    requires Trimmed(dataDir)
    ensures LoadConfigForm(dataDir, files, lib) == LoadConfigFormTrimmed(dataDir, files, lib)
  {
    TrimOfTrimmed(dataDir);
  }

  datatype Feedback = Saved | ValidationError(message: string) | PersistenceError(message: string)

  /** The settings panel's state: the form, whether it has unsaved edits,
      and the feedback shown under it. */
  datatype ConfigState = ConfigState(form: ConfigForm, dirty: bool, feedback: Option<Feedback>)

  /** `config_state_from_dir`: a clean state with the loaded form, or with
      the default form and the load error as feedback. */
  function ConfigStateFromDir(dataDir: string, files: Files, lib: Library): (r: ConfigState)
    ensures !r.dirty
    ensures r.feedback.None? <==> LoadConfigForm(dataDir, files, lib).Ok?
    ensures r.feedback.None? ==> r.form == LoadConfigForm(dataDir, files, lib).value
    ensures r.feedback.Some? ==>
      r.form == DefaultForm(lib) && r.feedback == Some(PersistenceError(LoadConfigForm(dataDir, files, lib).error))
  {
    match LoadConfigForm(dataDir, files, lib)
    case Ok(form) => ConfigState(form, false, None)
    case Err(e) => ConfigState(DefaultForm(lib), false, Some(PersistenceError(e)))
  }

  /** One edit the settings panel makes to the form. */
  datatype FormEdit =
    | SetSignupMode(mode: SignupMode)
    | SetPubkySocket(text: string)
    | SetIcannSocket(text: string)
    | SetAdminSocket(text: string)
    | SetAdminPassword(text: string)
    | SetPublicIp(text: string)
    | SetTlsPort(text: string)
    | SetHttpPort(text: string)
    | SetIcannDomain(text: string)
    | SetLoggingLevel(text: string)

  function Edited(form: ConfigForm, edit: FormEdit): ConfigForm
  {
    match edit
    case SetSignupMode(m) => form.(signupMode := m)
    case SetPubkySocket(t) => form.(pubkySocket := t)
    case SetIcannSocket(t) => form.(icannSocket := t)
    case SetAdminSocket(t) => form.(adminSocket := t)
    case SetAdminPassword(t) => form.(adminPassword := t)
    case SetPublicIp(t) => form.(publicIp := t)
    case SetTlsPort(t) => form.(publicTlsPort := t)
    case SetHttpPort(t) => form.(publicHttpPort := t)
    case SetIcannDomain(t) => form.(icannDomain := t)
    case SetLoggingLevel(t) => form.(loggingLevel := t)
  }

  /** `modify_config_form`: the edit is applied, the form becomes dirty
      and any feedback is cleared. */
  function Modified(state: ConfigState, edit: FormEdit): (r: ConfigState)
    ensures r.dirty && r.feedback.None?
    ensures r.form == Edited(state.form, edit)
  {
    ConfigState(Edited(state.form, edit), true, None)
  }

  /** An edit only ever changes the one field it names: editing the same
      field twice keeps the second value, and edits of different fields
      commute. */
  lemma EditsCommute(form: ConfigForm, a: FormEdit, b: FormEdit)
    ensures a.SetSignupMode? == b.SetSignupMode? && a.SetPubkySocket? == b.SetPubkySocket?
      && a.SetIcannSocket? == b.SetIcannSocket? && a.SetAdminSocket? == b.SetAdminSocket?
      && a.SetAdminPassword? == b.SetAdminPassword? && a.SetPublicIp? == b.SetPublicIp?
      && a.SetTlsPort? == b.SetTlsPort? && a.SetHttpPort? == b.SetHttpPort?
      && a.SetIcannDomain? == b.SetIcannDomain?
      ==> Edited(Edited(form, a), b) == Edited(form, b)
    ensures a.SetSignupMode? != b.SetSignupMode? || a.SetPubkySocket? != b.SetPubkySocket?
      || a.SetIcannSocket? != b.SetIcannSocket? || a.SetAdminSocket? != b.SetAdminSocket?
      || a.SetAdminPassword? != b.SetAdminPassword? || a.SetPublicIp? != b.SetPublicIp?
      || a.SetTlsPort? != b.SetTlsPort? || a.SetHttpPort? != b.SetHttpPort?
      || a.SetIcannDomain? != b.SetIcannDomain?
      ==> Edited(Edited(form, a), b) == Edited(Edited(form, b), a)
  {
  }
}
