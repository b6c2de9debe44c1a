# pubky-vibes, modelled in Dafny

A Dafny model of the logic inside the pubky-vibes apps: the parts that can be specified without a screen, a network or a disk. It covers the following.

- **Pubky Swiss Knife** (a desktop and Android toolbox for the Pubky protocol):
  - the Social tab's field parsers: profile links, post kinds, embeds and attachments, and the links formatter;
  - the `Name: Value` header parser;
  - the 200-entry activity log, modelled as a class;
  - settings defaults and their normalisation;
  - secret-key decoding and `.pkarr` recovery-path normalisation;
  - the pkarr resolver's port defaulting and its IPv4-first ordering;
  - folding `_iroh` TXT attributes, the discovery summary, the `quic://` address parser and the HTTP response formatter;
  - the tab bar and the facade-build rules of the shell;
  - the build script's NDK and libatomic search.
- **Portable Homeserver** (a one-window launcher for a Pubky homeserver):
  - the lifecycle status and start validation;
  - the status panel's copy;
  - stopping and starting as status transitions, with each spawned task's completion as its own step;
  - the button rules and the reload, save-and-restart and start handlers;
  - the configuration form, how it maps to and from `config.toml`, and saving it;
  - the bounded, numbered log store and its tracing visitor;
  - the Android manifest patcher script.
- **Orbital Sovereigns** (a turn-based ship battle played over Pubky storage):
  - ship blueprints and their derived mass and hull;
  - shield-then-hull damage, the round counter and the end-of-match rule;
  - match metadata and storage paths;
  - validating, resolving, logging and replaying turns;
  - the commander identity;
  - the actor and vector rules of the battle screen;
  - the activity log and the client facade's status;
  - the turn-file and `latest.json` pointer protocol between the players.
- **The vendored homeserver**:
  - the `_iroh` TXT discovery records;
  - the iroh gateway's discovery snapshot;
  - the republish interval and the record list of the signed pkarr packet;
  - the LMDB map size read from the environment.

Each source file becomes one module. Code that the source writes as expressions and matches becomes functions and lemmas. Code that updates state step by step becomes methods with loops and invariants, or classes whose methods update their fields in place. The classes are the three activity logs, the homeserver's log store and its field visitor, the Swiss Knife's settings, social forms and shell, the homeserver window, `config.toml`, the commander identity, the battle state, the match descriptor, the players' public storage and the Android manifest. Every such method is specified by a function, and the lemmas are stated about that function.

Everything the apps obtain from outside appears as a parameter or an input value. This includes:
- library parsers: socket and IP addresses, URLs, public keys, header names, log levels and post kinds;
- file contents and directory listings;
- environment values;
- clocks, random draws and identifiers;
- the Pubky client's storage, modelled as a map from path to stored text.

`Wrappers` holds `Option` and `Result`. `Strings` models the parts of Rust's `str` the code relies on (`trim`, `lines`, `split_once`, `split`, the `String` order and decimal parsing). `Base64` is the padded standard alphabet of section 4 of RFC 4648. `LineParsing` is the shared "first bad line wins" rule of the multi-line fields.

## Model

| member | source | states |
|---|---|---|
| SwissSocial.OptionalField | pubky-swiss-knife/src/tabs/social.rs:625-632 | None exactly when the input is blank; otherwise a non-empty, trimmed value |
| SwissSocial.OptionalFieldIdempotent | pubky-swiss-knife/src/tabs/social.rs:625-632 | applying `optional_field` to its own result gives that result back |
| SwissSocial.ParseLinkLineShape | pubky-swiss-knife/src/tabs/social.rs:636-656 | a blank line is skipped; a parsed link has a non-empty trimmed title without '\|' and a non-empty trimmed URL; an error carries the 1-based line number |
| SwissSocial.ParseLinksSpec | pubky-swiss-knife/src/tabs/social.rs:657-661 | an empty list of links is reported as None, never as Some of an empty list |
| SwissSocial.ParseLinks | pubky-swiss-knife/src/tabs/social.rs:634-662 | the loop over the lines returns exactly the line-by-line specification: the first bad line's error, else the links in line order |
| SwissSocial.ReadLinkLine | pubky-swiss-knife/src/tabs/social.rs:637-655 | the body of the loop reads one line exactly as the line specification says: skipped when blank, the numbered title or URL error, else the trimmed link |
| SwissSocial.FormattedLinksCollect | pubky-swiss-knife/src/tabs/social.rs:634-662 | the lines `format_links` writes, read back by `lines`, collect to the very links that were formatted |
| SwissSocial.FirstBadLineReported | pubky-swiss-knife/src/tabs/social.rs:636-651 | when line j is the first bad line, its message ("Link j is missing a title/URL") is the result |
| SwissSocial.LinkLineSplitsAtFirstBar | pubky-swiss-knife/src/tabs/social.rs:641-655 | a "title\|url" line splits at the first '\|' and yields the trimmed title and URL |
| SwissSocial.FormattedLineParses | pubky-swiss-knife/src/tabs/social.rs:703-711 | a "title \| url" line written by `format_links` is a single line that parses back to the same link |
| SwissSocial.FormatThenParse | pubky-swiss-knife/src/tabs/social.rs:634-662 | `parse_links(format_links(links))` gives the links back (None for none or an empty list) |
| SwissSocial.ParsePostKind | pubky-swiss-knife/src/tabs/social.rs:664-670 | blank input gives "Select a post kind"; otherwise the result is the kind parser's verdict on the trimmed input, with "Invalid post kind: " before its error |
| SwissSocial.ParseEmbed | pubky-swiss-knife/src/tabs/social.rs:672-687 | both fields blank iff no embed; exactly one blank gives "Provide both an embed kind and URI"; with both filled, the result is Ok exactly when the trimmed kind parses, and is then Ok(Some(Embed(kind, trimmed URI))); otherwise the error is "Invalid embed kind: " followed by the parser's message |
| SwissSocial.NonBlankTrimmed | pubky-swiss-knife/src/tabs/social.rs:690-695 | keeps only non-empty trimmed lines, and is empty exactly when every line is blank |
| SwissSocial.ParseAttachments | pubky-swiss-knife/src/tabs/social.rs:689-701 | never Some of an empty list; None exactly when every line is blank |
| SwissSocial.NonBlankTrimmedKeeps | pubky-swiss-knife/src/tabs/social.rs:690-695 | lines that are already non-empty and trimmed pass through unchanged |
| SwissSocial.AttachmentsRoundTrip | pubky-swiss-knife/src/tabs/social.rs:689-701 | attachments joined with newlines parse back to the same list |
| SwissSocial.SocialForms.SaveProfile | pubky-swiss-knife/src/tabs/social.rs:288-353 | without a session only "No active session" is logged; a blank name, bad links, a profile the validator refuses ("Invalid profile data: …") or one that does not serialise ("Failed to serialize profile: …") set the error line, log the message and write nothing; otherwise the error line is cleared and one write of the profile with its serialised body is queued; any write is of a validated, serialised profile |
| SwissSocial.SocialForms.CreatePost | pubky-swiss-knife/src/tabs/social.rs:449-512 | session, content, kind and embed checks, then the validator ("Invalid post: …") and the serialiser ("Failed to serialize post: …"), in source order, each logging its message and writing nothing; otherwise one write of the post, with parent, embed and attachments, and its serialised body; any write is of a validated, serialised post |
| SwissSocial.SocialForms.CreateTag | pubky-swiss-knife/src/tabs/social.rs:557-604 | session, URI and label checks, then the validator ("Invalid tag: …") and the serialiser ("Failed to serialize tag: …"), in order, each logging its message and writing nothing; otherwise one write of the tag and its serialised body; any write is of a validated, serialised tag |
| SwissApp.NetworkLabel | pubky-swiss-knife/src/app.rs:28-33 | "Mainnet" and "Testnet" name exactly their own mode |
| SwissApp.AllTabsDistinctlyLabelled | pubky-swiss-knife/src/app.rs:49-71 | `Tab::ALL` lists all 8 tabs once each, with pairwise distinct labels |
| SwissApp.VisibleTabsBySession | pubky-swiss-knife/src/app.rs:305-308 | with a session every tab shows in order; without one exactly Social is hidden |
| SwissApp.TabShownIff | pubky-swiss-knife/src/app.rs:305-308 | a tab is in the bar exactly when it needs no session or a session exists |
| SwissApp.ShownCons | pubky-swiss-knife/src/app.rs:305-308 | the tab filter decides each tab on its own, in order |
| SwissApp.AllShownWithSession | pubky-swiss-knife/src/app.rs:126-128 | with a session the filter keeps every tab |
| SwissApp.QueueSettles | pubky-swiss-knife/src/app.rs:422-438 | a queued build targets the network and is not failed; queueing again without force is a no-op; a fresh Loading state appears exactly when forced, failed or on another network |
| SwissApp.StaleResultDropped | pubky-swiss-knife/src/app.rs:441-453 | a build result for a network that is no longer selected leaves the facade unchanged |
| SwissApp.Shell.constructor | pubky-swiss-knife/src/app.rs:133-141 | starts on Keys, Mainnet, no session, facade Loading for Mainnet, not bootstrapped |
| SwissApp.Shell.QueuePubkyBuild | pubky-swiss-knife/src/app.rs:422-455 | the facade becomes the queued state and a build is spawned exactly when it is not skipped; nothing else changes |
| SwissApp.Shell.Bootstrap | pubky-swiss-knife/src/app.rs:239-248 | the first render forces a build for the selected network; later renders change nothing |
| SwissApp.Shell.SelectNetwork | pubky-swiss-knife/src/app.rs:282-297 | the toggle sets the network and queues an unforced build for it |
| SwissApp.Shell.Retry | pubky-swiss-knife/src/app.rs:373-379 | Retry forces a build for the facade's network |
| SwissApp.Shell.CompleteBuild | pubky-swiss-knife/src/app.rs:441-453 | a finished build is applied only while its network is still selected |
| SwissApp.Shell.ResetLockedTab | pubky-swiss-knife/src/app.rs:226-230 | Social without a session falls back to Keys, so the active tab is always a visible one |
| SwissApp.Shell.PrefillSessionHomeserver | pubky-swiss-knife/src/app.rs:231-237 | on Testnet the session homeserver field is set to the testnet default key |
| SwissIroh.ResolveIrohRecords | pubky-swiss-knife/src/utils/iroh.rs:68-97 | the loop over the packet's records returns the fold's result, and Ok(None) exactly when the folded details are empty |
| SwissIroh.FoldIsMerge | pubky-swiss-knife/src/utils/iroh.rs:70-91 | folding record by record equals the merged view: addresses appended in record order, the first relay wins, the last ALPN wins |
| SwissIroh.MergeStep | pubky-swiss-knife/src/utils/iroh.rs:75-90 | one record's step followed by the rest equals the merged view of all records |
| SwissIroh.ForeignRecordIgnored | pubky-swiss-knife/src/utils/iroh.rs:71-73 | a record whose name does not contain "_iroh._udp" leaves the details unchanged |
| SwissIroh.ResolveByAttribute | pubky-swiss-knife/src/utils/iroh.rs:77-97 | an unparsable first relay aborts with its message; otherwise the details are the addresses, the first relay and the last ALPN, and None exactly when all three are absent |
| SwissIroh.FormatDiscoverySummary | pubky-swiss-knife/src/utils/iroh.rs:235-254 | the lines, built step by step, are the Relay / Direct addresses / ALPN lines joined with '\n', or the placeholder when there are none |
| SwissIroh.JoinStartsWithFirst | pubky-swiss-knife/src/utils/iroh.rs:252 | the joined summary starts with its first line |
| SwissIroh.SummaryPlaceholderIffEmpty | pubky-swiss-knife/src/utils/iroh.rs:249-250 | the summary is "No _iroh TXT attributes published." exactly when the details are empty |
| SwissIroh.SummaryLinesReadBack | pubky-swiss-knife/src/utils/iroh.rs:236-253 | splitting a non-empty summary at line breaks gives back its lines in order |
| SwissIroh.PrefixedPlain | pubky-swiss-knife/src/utils/iroh.rs:238-247 | a "Relay: ", "  - " or "ALPN: " line over text without line breaks is a single line |
| SwissIroh.PlainLineWitness | pubky-swiss-knife/src/utils/iroh.rs:236-248 | every summary line other than the header is one of those prefixes followed by its value |
| SwissIroh.EntryAddrs | pubky-swiss-knife/src/utils/iroh.rs:270-287 | an entry is accepted only with the quic scheme, a port and a host; an IPv4 or IPv6 host gives exactly that socket address |
| SwissIroh.AddrLessTotal | pubky-swiss-knife/src/utils/iroh.rs:289 | the `SocketAddr` order (family, address, port) is total and asymmetric |
| SwissIroh.InsertFacts | pubky-swiss-knife/src/utils/iroh.rs:289-290 | inserting into a strictly increasing list keeps it strictly increasing and adds exactly the new element |
| SwissIroh.SortDedupFacts | pubky-swiss-knife/src/utils/iroh.rs:289-290 | sort then dedup gives a strictly increasing list of exactly the input's elements |
| SwissIroh.StrictlySortedUnique | pubky-swiss-knife/src/utils/iroh.rs:289-290 | two strictly increasing lists with the same elements are equal, so the sorted, deduplicated output is unique |
| SwissIroh.ParseDirectAddresses | pubky-swiss-knife/src/utils/iroh.rs:267-292 | the loop returns the first entry's error or the collected addresses sorted without duplicates |
| SwissIroh.CollectedErrors | pubky-swiss-knife/src/utils/iroh.rs:269-288 | collection fails exactly when some entry fails, and then with the first failing entry's error |
| SwissIroh.CollectedContents | pubky-swiss-knife/src/utils/iroh.rs:269-288 | on success every entry was accepted and the addresses are exactly those of the entries |
| SwissIroh.ParsedAddressesFacts | pubky-swiss-knife/src/utils/iroh.rs:267-292 | refused iff some entry is refused (non-quic scheme, no port, no host); otherwise strictly sorted and holding exactly the entries' addresses |
| SwissIroh.FormatHttpResponse | pubky-swiss-knife/src/utils/iroh.rs:294-314 | the loop keeps exactly the headers whose values are visible ASCII and renders the response text |
| SwissIroh.HeaderLinesShown | pubky-swiss-knife/src/utils/iroh.rs:295-300 | a header line is shown iff some header with a visible value renders to it |
| SwissIroh.HttpResponseShape | pubky-swiss-knife/src/utils/iroh.rs:302-313 | the text starts with "version status\n" and ends with the UTF-8 body, or with "<binary N bytes>" for N body bytes |
| SwissIroh.ParseHomeserverKey | pubky-swiss-knife/src/utils/iroh.rs:317-336 | a found key is a valid key, comes only from the pubky, https or http schemes, and for http(s) begins the host |
| SwissIroh.PubkySchemeKey | pubky-swiss-knife/src/utils/iroh.rs:319-321 | pubky://<key>/... gives the key |
| SwissIroh.HttpsSubdomainKey | pubky-swiss-knife/src/utils/iroh.rs:330-333 | https://<key>.pubky/... gives the key |
| SwissIroh.PubkyPathKey | pubky-swiss-knife/src/utils/iroh.rs:322-328 | a host-less pubky URL takes the first path segment after the leading slashes |
| SwissIroh.FirstSegmentOf | pubky-swiss-knife/src/utils/iroh.rs:323-326 | the first segment after any leading slashes is the key |
| SwissIroh.TrimSlashes | pubky-swiss-knife/src/utils/iroh.rs:324 | `trim_start_matches('/')` removes exactly the leading slashes |
| SwissBuild.HostTagFacts | pubky-swiss-knife/build.rs:170-193 | the tag is one of the six known tags; there is none exactly when the lower-cased host names neither linux, apple-darwin nor windows; linux wins; no HOST gives no tag |
| SwissBuild.LowercaseConcat | pubky-swiss-knife/build.rs:172 | lower-casing distributes over concatenation |
| SwissBuild.LinuxHostTag | pubky-swiss-knife/build.rs:174-175 | any host containing "linux" maps to "linux-x86_64" |
| SwissBuild.CandidateLessOrder | pubky-swiss-knife/build.rs:166-167 | the path order on candidates of one scan is a strict total order |
| SwissBuild.GreatestIsLast | pubky-swiss-knife/build.rs:166-167 | sort then pop yields a candidate of the list that no other candidate exceeds |
| SwissBuild.EntryCandidatesShape | pubky-swiss-knife/build.rs:143-149 | a directory entry becomes a candidate exactly when it is a directory (holding libatomic.a where required) |
| SwissBuild.LatestSubdirFacts | pubky-swiss-knife/build.rs:69-79 | None exactly when the directory is unreadable or has no sub-directory; otherwise the sub-directory with the greatest name |
| SwissBuild.CollectEntries | pubky-swiss-knife/build.rs:143-149 | the loop over a listing collects exactly the qualifying entries |
| SwissBuild.LatestSubdir | pubky-swiss-knife/build.rs:69-79 | the loop returns the latest sub-directory as specified |
| SwissBuild.FirstDirectRootFacts | pubky-swiss-knife/build.rs:45-51 | the first direct key naming a directory wins; None when no key does |
| SwissBuild.NdkRootPrecedence | pubky-swiss-knife/build.rs:36-63 | a direct NDK variable naming a directory takes precedence over the SDK's latest ndk sub-directory |
| SwissBuild.LocateNdkRoot | pubky-swiss-knife/build.rs:36-63 | the two loops return the specified NDK root |
| SwissBuild.LibatomicInFacts | pubky-swiss-knife/build.rs:127-168 | a result is a directory holding libatomic.a; clang-tree candidates shadow the sysroot; the greatest candidate is returned; None exactly when there are no candidates |
| SwissBuild.CandidatesHoldLibatomic | pubky-swiss-knife/build.rs:146-160 | every candidate is a directory holding libatomic.a |
| SwissBuild.ClangCandidatesHoldLibatomic | pubky-swiss-knife/build.rs:131-152 | every clang-tree candidate is a directory holding libatomic.a |
| SwissBuild.CollectClangCandidates | pubky-swiss-knife/build.rs:128-152 | the nested loops collect exactly the clang-tree candidates |
| SwissBuild.LocateLibatomicInPrebuilt | pubky-swiss-knife/build.rs:127-168 | returns the specified greatest candidate |
| SwissBuild.FirstLibatomicFacts | pubky-swiss-knife/build.rs:118-124 | the first search root with a libatomic directory wins; None when no root has one |
| SwissBuild.FirstLibatomicNone | pubky-swiss-knife/build.rs:118-124 | the search finds nothing exactly when no root yields a directory |
| SwissBuild.FirstLibatomicWitness | pubky-swiss-knife/build.rs:118-124 | a successful search names a root that yields its directory, and every root before it yields none |
| SwissBuild.FirstLibatomicAt | pubky-swiss-knife/build.rs:118-122 | the first root that yields a directory, after roots yielding none, decides the search (the early return) |
| SwissBuild.LibatomicDirFacts | pubky-swiss-knife/build.rs:81-125 | a result holds libatomic.a; an existing tagged prebuilt directory is the only root searched |
| SwissBuild.LocateLibatomicDir | pubky-swiss-knife/build.rs:81-125 | the loop over the search roots returns the specified directory |
| SwissBuild.RunBuildScript | pubky-swiss-knife/build.rs:6-34 | the directives printed are exactly the specified ones |
| SwissBuild.BuildDirectivesFacts | pubky-swiss-knife/build.rs:6-34 | eight rerun directives always; nothing else unless the target is Android x86; the link directive appears exactly when both the NDK and libatomic are found |
| SwissLogging.Class | pubky-swiss-knife/src/utils/logging.rs:24-30 | each level has its own CSS class, in both directions |
| SwissLogging.NewestAfterAppend | pubky-swiss-knife/src/utils/logging.rs:37-44 | appending to a full log drops exactly the oldest entry; below the cap nothing is dropped; the new entry is last and the cap holds |
| SwissLogging.ActivityLog.constructor | pubky-swiss-knife/src/utils/logging.rs:37-44 | an empty log within the cap |
| SwissLogging.ActivityLog.PushLog | pubky-swiss-knife/src/utils/logging.rs:37-44 | the new entries are the newest 200 of the old entries plus the pushed one |
| SwissRecovery.DecodeSecretKey | pubky-swiss-knife/src/utils/recovery.rs:7-15 | accepts exactly the trimmed base64 text of 32 bytes; invalid base64 and a wrong length are the two errors, each in both directions |
| SwissRecovery.EncodedIsTrimmed | pubky-swiss-knife/src/utils/recovery.rs:9 | base64 output has no surrounding whitespace |
| SwissRecovery.SecretKeyRoundTrip | pubky-swiss-knife/src/utils/recovery.rs:7-15 | decoding the base64 of a 32-byte secret, padded with whitespace, gives the secret back |
| SwissRecovery.NormalizeErrors | pubky-swiss-knife/src/utils/recovery.rs:42-59 | "path cannot be empty" exactly for blank input; the home-directory error exactly for a "~" path with no home |
| SwissRecovery.PkarrFileName | pubky-swiss-knife/src/utils/recovery.rs:61-68 | a path ending in stem.pkarr has file name stem.pkarr and extension pkarr |
| SwissRecovery.StemShape | pubky-swiss-knife/src/utils/recovery.rs:67 | a file name's stem is non-empty and holds no separator |
| SwissRecovery.FileNameSplitShape | pubky-swiss-knife/src/utils/recovery.rs:61-67 | a split gives a non-empty file name and a directory part ending in "/" or empty |
| SwissRecovery.ResultHasPkarrExtension | pubky-swiss-knife/src/utils/recovery.rs:61-70 | whenever the expanded path has a file name in the sense of `Path::file_name` (trailing separators and "." components skipped), the result ends in an extension equal to "pkarr" ignoring ASCII case; a path with no file name (the root, a leading ".", "..") is left as it is, as `set_extension` does |
| SwissRecovery.TrailingCurDirNamesDirectory | pubky-swiss-knife/src/utils/recovery.rs:61-68 | a path ending in "/." names the component before it, has no extension, and gets ".pkarr" in place of the "/." |
| SwissRecovery.TrailingCurDirNormalized | pubky-swiss-knife/src/utils/recovery.rs:46-70 | a trimmed relative path "dir/name/." is saved as "dir/name.pkarr" |
| SwissRecovery.TrailingCurDirExample | pubky-swiss-knife/src/utils/recovery.rs:46-70 | "keys/." is normalised to "keys.pkarr" |
| SwissRecovery.KeepsPkarrExtension | pubky-swiss-knife/src/utils/recovery.rs:58-70 | a trimmed path already ending in .pkarr (any case) is returned unchanged |
| SwissRecovery.HomeKeysExample | pubky-swiss-knife/src/utils/recovery.rs:48-68 | "~/keys/name" becomes home + "/keys/name.pkarr" |
| SwissRequests.ParseHeaderName | pubky-swiss-knife/src/utils/requests.rs:73 | a header name parses exactly when it is an HTTP token |
| SwissRequests.HeaderResults | pubky-swiss-knife/src/utils/requests.rs:65 | one result per input line |
| SwissRequests.ParseHeaders | pubky-swiss-knife/src/utils/requests.rs:63-77 | the loop returns the specified headers or the first line's error |
| SwissRequests.ReadHeaderLine | pubky-swiss-knife/src/utils/requests.rs:66-74 | the body of the loop reads one line exactly as the line specification says: skipped when blank, the numbered format error, the name parser's error, else the trimmed header |
| SwissRequests.BlankLineSkipped | pubky-swiss-knife/src/utils/requests.rs:66-69 | a line is skipped exactly when it is blank |
| SwissRequests.MissingColonRefused | pubky-swiss-knife/src/utils/requests.rs:70-72 | a non-blank line without ':' fails naming its 1-based line number |
| SwissRequests.SplitsAtFirstColon | pubky-swiss-knife/src/utils/requests.rs:70-74 | a line splits at its first ':'; name and value are trimmed |
| SwissRequests.InvalidNameRefused | pubky-swiss-knife/src/utils/requests.rs:73 | a name that is not a token is refused |
| SwissRequests.FirstBadHeaderReported | pubky-swiss-knife/src/utils/requests.rs:63-77 | the error of the first bad line is the error of the whole parse |
| SwissRequests.TokenFacts | pubky-swiss-knife/src/utils/requests.rs:73 | a token has no ':', newline or whitespace |
| SwissRequests.HeaderTextParses | pubky-swiss-knife/src/utils/requests.rs:66-74 | a "Name: value" line parses back to its header |
| SwissRequests.HeadersRoundTrip | pubky-swiss-knife/src/utils/requests.rs:63-77 | headers written one per line parse back to the same list |
| SwissSettings.DefaultsNotBlank | pubky-swiss-knife/src/utils/settings.rs:197-211 | every default is non-blank |
| SwissSettings.FilledProperties | pubky-swiss-knife/src/utils/settings.rs:115-131 | a refilled field is non-blank, a non-blank field is kept, and refilling is idempotent |
| SwissSettings.AppSettings.Default | pubky-swiss-knife/src/utils/settings.rs:48-67 | Mainnet, the defaults for the five defaulted fields, all other fields empty, already normalised |
| SwissSettings.AppSettings.Normalize | pubky-swiss-knife/src/utils/settings.rs:115-131 | the five defaulted fields are refilled when blank, everything else is unchanged, the result is normalised, and normalised settings stay as they were |
| SwissSettings.RefillFacts | pubky-swiss-knife/src/utils/settings.rs:115-131 | after refilling, none of the five fields is blank, and a field that was not blank is kept as it was |
| SwissTransport.NormalizedPortsFacts | pubky-swiss-knife/src/utils/transport.rs:111-117 | same length and IPs; port 0 becomes 443; other ports unchanged |
| SwissTransport.NormalizePort | pubky-swiss-knife/src/utils/transport.rs:111-117 | the in-place loop leaves the array equal to the normalised ports |
| SwissTransport.OfFamilyAppend | pubky-swiss-knife/src/utils/transport.rs:97 | family filtering distributes over concatenation |
| SwissTransport.OfFamilyShape | pubky-swiss-knife/src/utils/transport.rs:97 | filtering keeps only that family's addresses from the input and is idempotent |
| SwissTransport.FamiliesSplit | pubky-swiss-knife/src/utils/transport.rs:97 | the two families together are a permutation of the input |
| SwissTransport.Ipv4FirstProperties | pubky-swiss-knife/src/utils/transport.rs:97 | the stable sort by family is a permutation, IPv4 before IPv6, keeping each family's relative order |
| SwissTransport.SortIpv4First | pubky-swiss-knife/src/utils/transport.rs:97 | the in-place sort leaves the array equal to the specified stable order |
| SwissTransport.SplitFamilies | pubky-swiss-knife/src/utils/transport.rs:97 | the IPv4 and the IPv6 addresses of the array, each group in its original order |
| SwissTransport.WriteAll | pubky-swiss-knife/src/utils/transport.rs:97 | the array is overwritten with the given sequence of the same length |
| SwissTransport.Resolve | pubky-swiss-knife/src/utils/transport.rs:82-107 | a non-key host is looked up as host:0; a key with no endpoint fails; otherwise the endpoint's addresses, ports normalised, IPv4 first |
| SwissTransport.ResolvedAddressesUsable | pubky-swiss-knife/src/utils/transport.rs:95-99 | the resolved list keeps every address, has no port 0 and puts IPv4 first |
| HomeState.NetworkLabel | portable-homeserver/src/app/state.rs:36-43 | "Mainnet" exactly for Mainnet and "Static Testnet" exactly for the testnet |
| HomeState.StartErrorMessage | portable-homeserver/src/app/state.rs:69-77 | the missing-directory message |
| HomeState.ResolveStartSpec | portable-homeserver/src/app/state.rs:79-96 | on Mainnet the only error is a blank directory, in both directions, and the spec holds the trimmed directory; the testnet always succeeds |
| HomeState.ResolvedDirIsStable | portable-homeserver/src/app/state.rs:85-92 | a resolved directory is non-empty and trimmed, and resolving it again gives the same spec |
| HomeState.PaddedDirSameSpec | portable-homeserver/src/app/state.rs:85 | whitespace around the directory does not change the spec |
| HomeStatus.ClassNamesDistinguishVariants | portable-homeserver/src/app/status.rs:10-45 | two statuses share a CSS class exactly when they are the same variant |
| HomeStatus.ClassNameNamesVariant | portable-homeserver/src/app/status.rs:10-45 | the class name identifies the variant it came from |
| HomeStatus.RunningCopyFollowsNetwork | portable-homeserver/src/app/status.rs:22-33 | the running copy depends on the network alone, and differs between networks |
| HomeStatus.ErrorCopyIsFixed | portable-homeserver/src/app/status.rs:39-43 | the error copy does not depend on the message |
| HomeStatus.DisplayNetwork | portable-homeserver/src/app/status.rs:96-112 | Mainnet shows its label without a hint; the testnet shows its label with the local-relays suffix and the static-ports hint; a hint exactly on the testnet |
| HomeStatus.Details | portable-homeserver/src/app/status.rs:64-88 | no details exactly when idle; a fixed message exactly when starting or stopping; the error's own message; a running server's URLs, key and network display |
| HomeStatus.RunningDetailsDetermineInfo | portable-homeserver/src/app/status.rs:76-86 | running details are equal exactly when the server infos are equal |
| HomeConfig.ParseOptionalPort | portable-homeserver/src/app/config.rs:234-244 | blank is no port; an accepted port is at most 65535; an error exactly when the trimmed text is not a u16 |
| HomeConfig.PortErrorMentionsPort | portable-homeserver/src/app/config.rs:243 | the error says a port number is expected |
| HomeConfig.NatTextIsTrimmed | portable-homeserver/src/app/config.rs:38-47 | a number's text is non-blank and trimmed |
| HomeConfig.PortTextReadsBack | portable-homeserver/src/app/config.rs:38-47 | a port written into the form parses back to the same port, and an empty field to none |
| HomeConfig.ParseOptionalDomain | portable-homeserver/src/app/config.rs:246-255 | blank is no domain; otherwise the domain of the trimmed text, or an error exactly when it does not parse |
| HomeConfig.ParseLoggingLevel | portable-homeserver/src/app/config.rs:257-277 | blank keeps the existing logging section with the default level; a parsed level replaces only the level, on the existing section or the default one; an error exactly when the level does not parse |
| HomeConfig.ApplyForm | portable-homeserver/src/app/config.rs:169-191 | fields are assigned in source order up to the first failing parse: earlier fields take the form's values, later ones keep the old configuration; no error exactly when all ten steps succeed |
| HomeConfig.ConfigToml.constructor | portable-homeserver/src/app/config.rs:12 | the fields hold the given configuration |
| HomeConfig.ApplyConfigForm | portable-homeserver/src/app/config.rs:169-191 | updates the configuration in place as specified and reports the first error |
| HomeConfig.ApplyFormIdempotent | portable-homeserver/src/app/config.rs:169-191 | applying a valid form twice is the same as once |
| HomeConfig.FormRoundTrip | portable-homeserver/src/app/config.rs:30-60 | the form of a configuration applied to any configuration reproduces it, except the logging section's other settings and the unmodelled settings |
| HomeConfig.OwnFormLeavesConfig | portable-homeserver/src/app/config.rs:30-60 | applying a configuration's own form changes nothing |
| HomeConfig.Persist | portable-homeserver/src/app/config.rs:122-167 | a blank directory is refused; "unchanged" leaves the files as they were and needs an existing file; "updated" changes only the trimmed directory's config.toml, whose previous text (if any) parsed, and writes there exactly the TOML rendering of the form applied to that configuration or the default |
| HomeConfig.PersistUnchangedIff | portable-homeserver/src/app/config.rs:136-156 | the outcome is "unchanged" exactly when the file exists, parses and the form leaves it as it is |
| HomeConfig.SaveTwiceUnchanged | portable-homeserver/src/app/config.rs:122-167 | when the TOML renderer and parser are inverse, saving the same form again reports "unchanged" |
| HomeConfig.ReloadAsWrittenMissesSavedFile | portable-homeserver/src/app/config.rs:92-105 | as written, a form saved under a directory with trailing whitespace is not the one loaded back |
| HomeConfig.PaddedDirPaths | portable-homeserver/src/app/config.rs:97 | the padded and trimmed directories name different config files |
| HomeConfig.LoadConfigForm | portable-homeserver/src/app/config.rs:92-105 | the loader as written, joining the untrimmed directory: blank or missing gives the default form, a file that parses gives its form, and an error exactly when the file exists and does not parse |
| HomeConfig.ReloadAfterSave | portable-homeserver/src/app/config.rs:92-167 | with the corrected loader and a TOML renderer and parser that are inverse: after a save, the saved file parses, the form leaves it unchanged, and loading returns its form |
| HomeConfig.LoadConfigFormTrimmed | portable-homeserver/src/app/config.rs:92-105 | the corrected loader, reading under the trimmed directory: blank or missing gives the default form; an error exactly when the file exists and does not parse |
| HomeConfig.LoadersAgreeWhenTrimmed | portable-homeserver/src/app/config.rs:92-105 | for a directory without surrounding whitespace the program's loader and the corrected one give the same result |
| HomeConfig.SaveLoadedFormUnchanged | portable-homeserver/src/app/config.rs:92-156 | with the corrected loader: saving the form just loaded from a file reports "unchanged" (the program's loader gives the same form when the directory has no surrounding whitespace) |
| HomeConfig.ConfigStateFromDir | portable-homeserver/src/app/config.rs:107-120 | through the loader as written: a fresh state is clean; the loaded form with no feedback, or the default form with the load error |
| HomeConfig.Modified | portable-homeserver/src/app/config.rs:193-202 | an edit marks the state dirty and clears the feedback |
| HomeConfig.EditsCommute | portable-homeserver/src/app/config.rs:193-202 | a second edit of the same field overrides the first; edits of different fields commute |
| HomeTasks.LaunchesAppend | portable-homeserver/src/app/tasks.rs:81-106 | launches pending across two task lists add up |
| HomeTasks.LaunchesRemove | portable-homeserver/src/app/tasks.rs:94-106 | finishing one task removes exactly its launch from the count |
| HomeTasks.SpawnStart | portable-homeserver/src/app/tasks.rs:81-92 | the status becomes Starting, the running server is untouched, and exactly one launch is queued |
| HomeTasks.FinishLaunch | portable-homeserver/src/app/tasks.rs:94-106 | the task leaves the queue; success records the server and Running with its info; failure records the error and keeps the old server |
| HomeTasks.StopWhenSettled | portable-homeserver/src/app/tasks.rs:39-53 | from Idle or Error: the server handle is dropped, the status becomes Idle, and the callback queues a launch at once if given |
| HomeTasks.StopWhenActive | portable-homeserver/src/app/tasks.rs:39-61 | from Running, Starting or Stopping: Stopping, the handle is taken, and one shutdown is queued holding it and the callback |
| HomeTasks.ShutdownOutcome | portable-homeserver/src/app/tasks.rs:61-76 | a failed shutdown of a server sets the error message and drops the callback; otherwise Idle, then the callback's launch if any |
| HomeTasks.StopThenFinish | portable-homeserver/src/app/tasks.rs:30-77 | stop-then-start queues one launch unless shutting down a server fails |
| HomeTasks.ServerInfoFromSuite | portable-homeserver/src/app/tasks.rs:233-241 | the admin URL is "http://" followed by the admin socket; the other fields are copied |
| HomeUi.ButtonsByStatus | portable-homeserver/src/app/ui.rs:75-86 | Stop is enabled exactly when Running or Error; Start exactly when Idle or Error; restart is blocked exactly when both are disabled; Save needs unsaved edits and no restart in progress (ui.rs:269) |
| HomeUi.ReloadEffect | portable-homeserver/src/app/ui.rs:110-124 | through the loader as written, which joins the untrimmed directory: a reload replaces the form and clears the state, or keeps the form and shows the load error |
| HomeUi.SavedDirResolves | portable-homeserver/src/app/ui.rs:132-142 | once the config is persisted the directory always resolves, so the validation-error branch is never taken |
| HomeUi.SaveEffect | portable-homeserver/src/app/ui.rs:125-167 | a failed save shows the error and changes nothing else; a successful one writes the files, marks the form saved and stops the server with a restart queued |
| HomeUi.StartEffect | portable-homeserver/src/app/ui.rs:172-185 | an unresolvable directory sets the error status; otherwise the handle is dropped and a launch is queued |
| HomeUi.StepKeepsConsistent | portable-homeserver/src/app/ui.rs:67-192 | every enabled event keeps the status, the handle and the queued tasks consistent with each other |
| HomeUi.SettledOrActive | portable-homeserver/src/app/tasks.rs:30-77 | stopping from a consistent state that is not mid-transition stays consistent |
| HomeUi.HomeApp.constructor | portable-homeserver/src/app/ui.rs:18-26 | the default directory and its config state, loaded as written, Mainnet, Idle, no server and no tasks |
| HomeUi.HomeApp.OnSelectNetwork | portable-homeserver/src/app/ui.rs:105 | the state becomes the specified step, and consistency is kept |
| HomeUi.HomeApp.OnDataDirInput | portable-homeserver/src/app/ui.rs:106 | the state becomes the specified step, and consistency is kept |
| HomeUi.HomeApp.ModifyConfigForm | portable-homeserver/src/app/config.rs:193-202 | the state becomes the specified step, and consistency is kept |
| HomeUi.HomeApp.OnReload | portable-homeserver/src/app/ui.rs:110-124 | the state becomes the reload step, through the loader as written, and consistency is kept |
| HomeUi.HomeApp.OnSaveAndRestart | portable-homeserver/src/app/ui.rs:125-167 | the state becomes the specified step, and consistency is kept |
| HomeUi.HomeApp.OnStart | portable-homeserver/src/app/ui.rs:172-185 | the state becomes the specified step, and consistency is kept |
| HomeUi.HomeApp.OnStop | portable-homeserver/src/app/ui.rs:186-188 | the state becomes the specified step, and consistency is kept |
| HomeUi.HomeApp.StopCurrentServer | portable-homeserver/src/app/tasks.rs:30-77 | status, server slot and queued start become the specified stop transition; directory, network, form and files are untouched |
| HomeUi.SaveStep | portable-homeserver/src/app/ui.rs:125-167 | from a consistent window with save enabled, the save-and-restart step is the specified transition and stays consistent |
| HomeUi.HomeApp.FinishStop | portable-homeserver/src/app/tasks.rs:61-76 | the state becomes the specified step, and consistency is kept |
| HomeUi.HomeApp.FinishStart | portable-homeserver/src/app/tasks.rs:94-106 | the state becomes the specified step, and consistency is kept |
| HomeLogs.Window | portable-homeserver/src/app/logs.rs:98-101 | the window holds the last min(history, capacity) entries |
| HomeLogs.PushedWindow | portable-homeserver/src/app/logs.rs:98-101 | pushing onto the window of a history gives the window of the longer history |
| HomeLogs.PushAllKeepsWindow | portable-homeserver/src/app/logs.rs:88-105 | after any series of pushes, the store holds the newest entries up to its capacity |
| HomeLogs.PushBounded | portable-homeserver/src/app/logs.rs:98-101 | a full buffer drops its oldest entry; a non-full one only grows; the pushed entry is last |
| HomeLogs.WindowSequences | portable-homeserver/src/app/logs.rs:89-90 | the kept entries carry consecutive, increasing sequence numbers ending at the latest |
| HomeLogs.LogStore.WithCapacity | portable-homeserver/src/app/logs.rs:76-86 | an empty store with the given capacity and the counter at 1 |
| HomeLogs.LogStore.Push | portable-homeserver/src/app/logs.rs:88-105 | the entry gets the next sequence number and joins the bounded buffer |
| HomeLogs.LogStore.Snapshot | portable-homeserver/src/app/logs.rs:107-115 | the window of everything pushed, within the capacity |
| HomeLogs.LogStore.Capacity | portable-homeserver/src/app/logs.rs:121-123 | the configured capacity |
| HomeLogs.MessageOfFacts | portable-homeserver/src/app/logs.rs:169-192 | no message exactly when no field is named "message"; otherwise the last one recorded |
| HomeLogs.MessageOfNone | portable-homeserver/src/app/logs.rs:169-192 | no message exactly when no recorded field is named "message" |
| HomeLogs.LastMessageField | portable-homeserver/src/app/logs.rs:169-192 | a message comes from a "message" field after which no other "message" field was recorded |
| HomeLogs.OtherFieldsFacts | portable-homeserver/src/app/logs.rs:169-192 | the other fields are exactly the non-message fields, and together with the message fields they account for all of them |
| HomeLogs.LogVisitor.constructor | portable-homeserver/src/app/logs.rs:163-167 | no message and no fields |
| HomeLogs.LogVisitor.Record | portable-homeserver/src/app/logs.rs:170-191 | "message" replaces the message; any other name is appended to the fields |
| HomeLogs.OnEvent | portable-homeserver/src/app/logs.rs:202-218 | the store records the event's entry, numbered, with "(no message)" when there is none |
| ManifestPatch.PermissionNode | portable-homeserver/scripts/patch_android_manifest.py:44-45 | a childless uses-permission element whose only attribute is android:name, granting the permission |
| ManifestPatch.ApplicationIndex | portable-homeserver/scripts/patch_android_manifest.py:48-53 | the position of the first application element, or the end when there is none |
| ManifestPatch.WithPermissionFacts | portable-homeserver/scripts/patch_android_manifest.py:37-54 | afterwards the permission is granted; an existing grant leaves the children unchanged; otherwise exactly one element is inserted, just before the first application element or at the end |
| ManifestPatch.WithPermissionIdempotent | portable-homeserver/scripts/patch_android_manifest.py:37-54 | ensuring a permission twice is the same as once |
| ManifestPatch.WithPermissionKeepsGrants | portable-homeserver/scripts/patch_android_manifest.py:37-54 | adding one permission keeps every other grant |
| ManifestPatch.ApplicationFlagFacts | portable-homeserver/scripts/patch_android_manifest.py:57-64 | an error exactly when there is no application element; otherwise only the first application element changes, and only in the one attribute, which now holds the value |
| ManifestPatch.ApplicationFlagIdempotent | portable-homeserver/scripts/patch_android_manifest.py:57-64 | setting the flag twice is the same as once |
| ManifestPatch.Manifest.constructor | portable-homeserver/scripts/patch_android_manifest.py:28-34 | the manifest holds the given children |
| ManifestPatch.Manifest.EnsurePermission | portable-homeserver/scripts/patch_android_manifest.py:37-54 | the search and insertion loops leave the children as specified |
| ManifestPatch.Manifest.EnsureApplicationFlag | portable-homeserver/scripts/patch_android_manifest.py:57-64 | sets the attribute as specified, or reports the missing application element and changes nothing |
| ManifestPatch.ApplicationIndexIs | portable-homeserver/scripts/patch_android_manifest.py:48-53 | the first application index is characterised by the elements before it |
| ManifestPatch.PatchManifest | portable-homeserver/scripts/patch_android_manifest.py:67-74 | both permissions, then the cleartext flag, as specified |
| ManifestPatch.PatchedIsStable | portable-homeserver/scripts/patch_android_manifest.py:67-74 | a patched manifest grants both permissions and patching it again changes nothing |
| ManifestPatch.GrantsSurviveFlag | portable-homeserver/scripts/patch_android_manifest.py:57-64 | setting the flag keeps every permission grant |
| ManifestPatch.TrailingNewlineFacts | portable-homeserver/scripts/patch_android_manifest.py:84-92 | the written bytes are kept; one newline is added exactly when the file is non-empty and does not end in one; an empty file stays empty; a second run changes nothing |
| LmdbMapSize.DesiredMapSize | vendor/pubky-homeserver-0.6.0-rc.6/src/persistence/lmdb/db.rs:14-69 | the size is always between 16 MiB and usize::MAX |
| LmdbMapSize.MapSizeCases | vendor/pubky-homeserver-0.6.0-rc.6/src/persistence/lmdb/db.rs:14-69 | unset, blank or unparsable values give the 10 TB default; parsed values below 16 MiB, zero included, are raised to it; others are kept |
| LmdbMapSize.BlankTrimsToEmpty | vendor/pubky-homeserver-0.6.0-rc.6/src/persistence/lmdb/db.rs:20-21 | blank text trims to nothing |
| LmdbMapSize.DecimalSizeIsKept | vendor/pubky-homeserver-0.6.0-rc.6/src/persistence/lmdb/db.rs:20-68 | a decimal size of at least 16 MiB, with or without surrounding whitespace, is used as given |
| LmdbMapSize.ParsedSizeIsKept | vendor/pubky-homeserver-0.6.0-rc.6/src/persistence/lmdb/db.rs:28-68 | any text parsing to a size of at least 16 MiB is used as given |
| LmdbMapSize.DecimalTrims | vendor/pubky-homeserver-0.6.0-rc.6/src/persistence/lmdb/db.rs:20 | a decimal numeral is trimmed, and trimming removes surrounding whitespace |
| LmdbMapSize.MapSizeExamples | vendor/pubky-homeserver-0.6.0-rc.6/src/persistence/lmdb/db.rs:28-62 | "0" is clamped to the minimum; "-1" and "ten" fall back to the default |
| OrbitalShip.TotalMass | orbital-sovereigns/src/models/ship.rs:56-61 | the override when present, otherwise the sum of the module masses |
| OrbitalShip.Armouring | orbital-sovereigns/src/models/ship.rs:66 | only Hull and Shield modules, no more than the input |
| OrbitalShip.ArmourSumAppend | orbital-sovereigns/src/models/ship.rs:67-68 | the armour sum adds over concatenation |
| OrbitalShip.HullIntegrityOfArmouring | orbital-sovereigns/src/models/ship.rs:63-69 | hull integrity is the armour of the Hull and Shield modules, at least 3 for each |
| OrbitalShip.AddModule | orbital-sovereigns/src/models/ship.rs:63-69 | adding a module raises integrity by its armour exactly when it is a Hull or Shield module |
| OrbitalShip.ModuleMassAppend | orbital-sovereigns/src/models/ship.rs:60 | module mass adds over concatenation |
| OrbitalArena.WrapI32 | orbital-sovereigns/src/models/arena.rs:62 | a u32 value cast to i32 lands in i32 range and is unchanged below 2^31 |
| OrbitalArena.FromBlueprint | orbital-sovereigns/src/models/arena.rs:56-65 | at rest at the origin; the hull is the hull integrity and the shield a third of the mass, when they fit the integer widths |
| OrbitalArena.DamageFacts | orbital-sovereigns/src/models/arena.rs:67-77 | a positive shield absorbs first; the hull takes only a positive remainder; for non-negative damage on a non-negative shield, shield plus hull drop by exactly the damage |
| OrbitalArena.ShieldsTakeDamageFirst | orbital-sovereigns/src/models/arena.rs:136-150 | 60 damage on shield 50 and hull 100 leaves shield 0 and hull 90 |
| OrbitalArena.NewArena | orbital-sovereigns/src/models/arena.rs:88-94 | round 0 with the given seed and ships |
| OrbitalArena.MatchOverIff | orbital-sovereigns/src/models/arena.rs:96-102 | the match is over exactly when no two different pilots both have a ship with hull above zero |
| OrbitalArena.DamageKillsOnly | orbital-sovereigns/src/models/arena.rs:67-102 | damage never revives a ship: the alive pilots and the alive count can only shrink |
| OrbitalArena.Advanced | orbital-sovereigns/src/models/arena.rs:127-129 | the round goes up by one and nothing else changes |
| OrbitalArena.RngSeedFacts | orbital-sovereigns/src/models/arena.rs:104-106 | the random stream depends on seed and round alone, and moves on by one each round |
| OrbitalIdentity.NewProfile | orbital-sovereigns/src/models/identity.rs:19-31 | the label, the key's public text and the homeserver, as given |
| OrbitalIdentity.ImportOutcomeFacts | orbital-sovereigns/src/models/identity.rs:89-101 | success exactly when the trimmed text is the base64 of 32 bytes, giving the keypair of those bytes; invalid base64 and a wrong length are the only errors |
| OrbitalIdentity.ImportThenExport | orbital-sovereigns/src/models/identity.rs:89-113 | after an import the recovery hint is the trimmed secret text |
| OrbitalIdentity.CommanderIdentity.constructor | orbital-sovereigns/src/models/identity.rs:41-50 | "Unnamed Commander" with no keys, hint or rotation time |
| OrbitalIdentity.CommanderIdentity.SetLabel | orbital-sovereigns/src/models/identity.rs:57-59 | only the label changes |
| OrbitalIdentity.CommanderIdentity.SetKeypair | orbital-sovereigns/src/models/identity.rs:65-69 | the keypair, its base64 secret as hint and the rotation time are set; the export equals the hint |
| OrbitalIdentity.CommanderIdentity.ClearKeypair | orbital-sovereigns/src/models/identity.rs:71-73 | only the keypair is dropped; the hint and rotation time stay |
| OrbitalIdentity.CommanderIdentity.Generate | orbital-sovereigns/src/models/identity.rs:83-87 | the drawn keypair is installed and returned |
| OrbitalIdentity.CommanderIdentity.ImportSecretKey | orbital-sovereigns/src/models/identity.rs:89-101 | the specified outcome; a failure changes nothing; a success installs the keypair |
| OrbitalIdentity.CommanderIdentity.PublicProfile | orbital-sovereigns/src/models/identity.rs:103-107 | a profile exactly when a keypair is held, with the label and its public key |
| OrbitalIdentity.CommanderIdentity.ExportSecretKey | orbital-sovereigns/src/models/identity.rs:109-113 | the base64 secret exactly when a keypair is held |
| OrbitalMatch.NewMeta | orbital-sovereigns/src/models/match_state.rs:41-57 | no guest yet; host, blueprint, rules, seed, id and time as given |
| OrbitalMatch.WithGuest | orbital-sovereigns/src/models/match_state.rs:59-63 | the guest and its blueprint are set and nothing else changes |
| OrbitalMatch.EnsureGuest | orbital-sovereigns/src/models/match_state.rs:77-83 | ready exactly when both the guest and its blueprint are present |
| OrbitalMatch.ReadyOnceGuestJoins | orbital-sovereigns/src/models/match_state.rs:41-83 | a new match is not ready, and is ready once a guest joins |
| OrbitalMatch.ArenaStateOf | orbital-sovereigns/src/models/match_state.rs:65-75 | round 0 with the match's seed; the host's ship, plus the guest's when both guest and blueprint are present; a guest with the host's label replaces the host's ship |
| OrbitalMatch.MatchDescriptor.constructor | orbital-sovereigns/src/models/match_state.rs:92-98 | the meta and no latest turn |
| OrbitalMatch.MatchDescriptor.BumpTurn | orbital-sovereigns/src/models/match_state.rs:100-102 | the latest turn is set and the meta kept |
| OrbitalMatch.NewPaths | orbital-sovereigns/src/models/match_state.rs:112-117 | the namespace is the matches root followed by the id |
| OrbitalMatch.MetaPath | orbital-sovereigns/src/models/match_state.rs:119-121 | the namespace followed by "/meta.json" |
| OrbitalMatch.LatestPath | orbital-sovereigns/src/models/match_state.rs:123-125 | the namespace followed by "/latest.json" |
| OrbitalMatch.ReplaceChar | orbital-sovereigns/src/models/match_state.rs:130 | each occurrence of one character is replaced, and only those |
| OrbitalMatch.KeepSlugCharsFacts | orbital-sovereigns/src/models/match_state.rs:131 | only ASCII alphanumerics and '-' from the input are kept, a string of only those is unchanged, and nothing is added |
| OrbitalMatch.LoweredHasNoUpper | orbital-sovereigns/src/models/match_state.rs:128-130 | no upper-case ASCII survives lower-casing |
| OrbitalMatch.SlugChars | orbital-sovereigns/src/models/match_state.rs:128-131 | an actor's slug holds only lower-case ASCII letters, digits and '-' |
| OrbitalMatch.SlugOfSlug | orbital-sovereigns/src/models/match_state.rs:128-131 | slugging is idempotent and fixes strings already in slug form |
| OrbitalMatch.SlugCharsAreFixed | orbital-sovereigns/src/models/match_state.rs:128-131 | a string of slug characters is its own slug |
| OrbitalMatch.ZerosValue | orbital-sovereigns/src/models/match_state.rs:132 | padding zeros have value zero |
| OrbitalMatch.LeadingZerosValue | orbital-sovereigns/src/models/match_state.rs:132 | leading zeros do not change a numeral's value |
| OrbitalMatch.PaddedTurnReadsBack | orbital-sovereigns/src/models/match_state.rs:132 | the zero-padded turn has at least four digits and reads back as the turn |
| OrbitalMatch.MovePathFacts | orbital-sovereigns/src/models/match_state.rs:127-133 | a move lives under the namespace's moves folder, named by the padded turn and a dash, ending in ".json" |
| OrbitalMatch.MoveFileName | orbital-sovereigns/src/models/match_state.rs:127-133 | the file part of a move path starts with "moves/" and ends with ".json" |
| OrbitalMatch.MovePathShape | orbital-sovereigns/src/models/match_state.rs:127-133 | a move path is the namespace, a slash and the move file name, which is non-empty and starts with 'm' |
| OrbitalMatch.ChatPath | orbital-sovereigns/src/models/match_state.rs:135-137 | a chat file lies in the match's "chat" folder and ends in ".txt" |
| OrbitalMatch.ChatPathIsOwnFile | orbital-sovereigns/src/models/match_state.rs:119-137 | a chat path is never the meta path, the latest-turn pointer or a move path |
| OrbitalMatch.ChatPathInjective | orbital-sovereigns/src/models/match_state.rs:135-137 | messages sent at different times get different files |
| OrbitalBattle.TurnRefusals | orbital-sovereigns/src/models/battle.rs:54-90 | a turn fails exactly when the guest is missing, the actor has no ship or a destroyed one, or a fire target is missing or destroyed, each with the source's message, in the source's order |
| OrbitalBattle.TurnAdvances | orbital-sovereigns/src/models/battle.rs:128-138 | a turn advances the round by one, keeps the seed and the pilots, and records one event, the new round, the digest and the time |
| OrbitalBattle.TurnEffects | orbital-sovereigns/src/models/battle.rs:70-126 | a hit damages only the target by power plus 4 to 17; a miss changes no ship; bracing restores 6 to 17 shield to the actor |
| OrbitalBattle.ReplayRound | orbital-sovereigns/src/models/battle.rs:141-149 | a successful replay ends with the round advanced by the number of turns and the seed kept |
| OrbitalBattle.ReplayFailureSticks | orbital-sovereigns/src/models/battle.rs:143-145 | once a replay fails, later turns do not change its error |
| OrbitalBattle.PlayThenReplay | orbital-sovereigns/src/models/battle.rs:54-179 | replaying a played turn's recorded events reproduces its arena |
| OrbitalBattle.TurnKeepsReplay | orbital-sovereigns/src/models/battle.rs:54-149 | appending a played turn to a log that replays to the arena gives a log that replays to the new arena |
| OrbitalBattle.MatchState.constructor | orbital-sovereigns/src/models/battle.rs:42-48 | the meta and arena as given, with no turns |
| OrbitalBattle.MatchState.LatestTurn | orbital-sovereigns/src/models/battle.rs:50-52 | the last turn, or none exactly when there are no turns |
| OrbitalBattle.MatchState.ApplyAction | orbital-sovereigns/src/models/battle.rs:54-139 | the arena and log follow the specified turn, a failure changes nothing, and a log that replays to the arena still does |
| OrbitalBattle.MatchState.ApplyActionInner | orbital-sovereigns/src/models/battle.rs:151-179 | one replay step as specified |
| OrbitalBattle.MatchState.RebuildArena | orbital-sovereigns/src/models/battle.rs:141-149 | the arena becomes the replay of the log from the starting arena, or stays as it was on an error |
| OrbitalBattle.RebuildKeepsLiveArena | orbital-sovereigns/src/models/battle.rs:141-149 | an arena replayed from the start has round equal to the number of turns and the match's seed |
| OrbitalPlay.CurrentActorFacts | orbital-sovereigns/src/components/battle.rs:22-38 | no keypair means no actor; the host's key picks the host's label; otherwise the guest's label exactly when a guest holds the key; the actor is always a label of the match |
| OrbitalPlay.VectorPartsFacts | orbital-sovereigns/src/components/battle.rs:11-15 | accepted exactly when the text has two commas; then the three trimmed pieces between them, and the one error otherwise |
| OrbitalPlay.VectorPartsRejectsTwo | orbital-sovereigns/src/components/battle.rs:13-15 | "1,2" is refused |
| OrbitalPlay.VectorPartsAcceptsThree | orbital-sovereigns/src/components/battle.rs:12-15 | "1, 2, 3" gives the three trimmed components |
| OrbitalLog.CssClass | orbital-sovereigns/src/services/logging.rs:13-22 | each level has its own class, in both directions |
| OrbitalLog.CssClassesDistinct | orbital-sovereigns/src/services/logging.rs:13-22 | two levels share a class exactly when they are equal |
| OrbitalLog.NewEntry | orbital-sovereigns/src/services/logging.rs:31-39 | the level, message and clock reading, as given |
| OrbitalLog.ActivityLog.constructor | orbital-sovereigns/src/services/logging.rs:41-44 | an empty log |
| OrbitalLog.ActivityLog.PushLog | orbital-sovereigns/src/services/logging.rs:41-44 | the entry is appended and the earlier entries are kept, with no cap |
| OrbitalFacade.NetworkLabel | orbital-sovereigns/src/services/pubky_facade.rs:15-20 | "Mainnet" exactly for Mainnet and "Testnet" exactly for the testnet |
| OrbitalFacade.LoadingState | orbital-sovereigns/src/services/pubky_facade.rs:37-42 | loading, on the given network |
| OrbitalFacade.ReadyState | orbital-sovereigns/src/services/pubky_facade.rs:44-49 | ready with the client, on the given network |
| OrbitalFacade.ErrorState | orbital-sovereigns/src/services/pubky_facade.rs:51-56 | failed with the message, on the given network |
| OrbitalFacade.AccessorsPartition | orbital-sovereigns/src/services/pubky_facade.rs:58-74 | exactly one of the facade, the loading flag and the error message is present, each exactly for its status |
| OrbitalFacade.ConstructorsRoundTrip | orbital-sovereigns/src/services/pubky_facade.rs:37-74 | each constructor's value is read back by its accessor, and the network is kept |
| OrbitalStorage.PublicStorage.constructor | orbital-sovereigns/src/services/storage.rs:23-26 | the store holds the given objects |
| OrbitalStorage.PublicStorage.Put | orbital-sovereigns/src/services/storage.rs:23-27 | a success status stores the body at the path's URL; any other reply changes nothing |
| OrbitalStorage.StoreMatchMeta | orbital-sovereigns/src/services/storage.rs:17-29 | the encoded meta is stored at the meta path, or the failure is reported and nothing changes |
| OrbitalStorage.StoreTurn | orbital-sovereigns/src/services/storage.rs:31-58 | the move is stored first and the pointer second; a move failure stores nothing; a pointer failure leaves the move stored; success returns the pointer with the turn, hash and namespace-relative file |
| OrbitalStorage.ReadersFacts | orbital-sovereigns/src/services/storage.rs:83-97 | a non-success status is an error naming the status, in both directions; otherwise the text, or the decoded body |
| OrbitalStorage.FetchLatestPointerFacts | orbital-sovereigns/src/services/storage.rs:60-70 | a client error means no pointer yet; success with a decodable body gives it; any other status is an error |
| OrbitalStorage.FreshnessRule | orbital-sovereigns/src/services/sync.rs:9-25 | no pointer or a pointer no newer than the known turn gives nothing; a newer one fetches its turn file; errors pass through |
| OrbitalStorage.PointerFileOfMovePath | orbital-sovereigns/src/services/storage.rs:43-50 | the pointer's file of a move path is the move file name, "moves/" + padded turn + "-" + slug + ".json" |
| OrbitalStorage.NamespaceTrim | orbital-sovereigns/src/services/sync.rs:22 | the namespace loses exactly its one leading '/' |
| OrbitalStorage.TurnUrlAgrees | orbital-sovereigns/src/services/storage.rs:72-81 | the URL a reader rebuilds from the pointer is the URL the turn was stored at |
| OrbitalStorage.PointerIsNotATurnFile | orbital-sovereigns/src/services/storage.rs:36-54 | storing the pointer never overwrites a move file |
| OrbitalStorage.StoredTurnIsDiscovered | orbital-sovereigns/src/services/sync.rs:9-25 | after a turn is stored, an opponent knowing an older turn discovers exactly that turn, and one knowing this turn discovers nothing |
| IrohRecords.IsEmptyFacts | vendor/pubky-homeserver/pubky-homeserver-0.6.0-rc.6/src/discovery/iroh_records.rs:27-31 | a snapshot is empty exactly with no relay, no address and an ALPN of Some(""): no ALPN at all, a relay or an address each make it non-empty |
| IrohRecords.RelayAttributes | vendor/pubky-homeserver/pubky-homeserver-0.6.0-rc.6/src/discovery/iroh_records.rs:76-87 | one relay attribute exactly when a relay is set |
| IrohRecords.AddressAttributes | vendor/pubky-homeserver/pubky-homeserver-0.6.0-rc.6/src/discovery/iroh_records.rs:89-100 | one "addr" attribute per direct address, in order |
| IrohRecords.AlpnAttributes | vendor/pubky-homeserver/pubky-homeserver-0.6.0-rc.6/src/discovery/iroh_records.rs:102-113 | one ALPN attribute exactly when the ALPN is set and non-empty |
| IrohRecords.RecordsFacts | vendor/pubky-homeserver/pubky-homeserver-0.6.0-rc.6/src/discovery/iroh_records.rs:76-113 | success exactly when every "key=value" entry fits 255 octets, then one TXT record per attribute in order; otherwise the error names the first attribute that does not fit |
| IrohRecords.RecordsOkIff | vendor/pubky-homeserver/pubky-homeserver-0.6.0-rc.6/src/discovery/iroh_records.rs:76-113 | the records build succeeds exactly when every entry fits, and then holds one TXT record per attribute in order |
| IrohRecords.RecordsFirstError | vendor/pubky-homeserver/pubky-homeserver-0.6.0-rc.6/src/discovery/iroh_records.rs:76-113 | a failed build names the first attribute whose entry does not fit; all before it fit |
| IrohRecords.RecordsFailureSticks | vendor/pubky-homeserver/pubky-homeserver-0.6.0-rc.6/src/discovery/iroh_records.rs:76-113 | the first failing attribute ends the build: later attributes do not change the error |
| IrohRecords.PublishFacts | vendor/pubky-homeserver/pubky-homeserver-0.6.0-rc.6/src/discovery/iroh_records.rs:60-119 | the interval passes through; a TTL of 0 publishes nothing; otherwise one record per relay, address and non-empty ALPN, each a one-string TXT record at "_iroh._udp.<owner>." with class IN and the TTL; success exactly when all entries fit |
| IrohRecords.AttributesLayout | vendor/pubky-homeserver/pubky-homeserver-0.6.0-rc.6/src/discovery/iroh_records.rs:76-113 | the relay first, then the addresses, then the ALPN last |
| IrohRecords.RecordsStep | vendor/pubky-homeserver/pubky-homeserver-0.6.0-rc.6/src/discovery/iroh_records.rs:76-113 | one attribute either adds its record or fails the build with its key |
| IrohRecords.BuildPublication | vendor/pubky-homeserver/pubky-homeserver-0.6.0-rc.6/src/discovery/iroh_records.rs:60-119 | the relay block, the address loop and the ALPN block produce the specified publication |
| IrohRecords.PublishFirstFailure | vendor/pubky-homeserver/pubky-homeserver-0.6.0-rc.6/src/discovery/iroh_records.rs:76-113 | when attribute j is the first that does not fit, publishing fails with its key |
| IrohRecords.PublishAllFit | vendor/pubky-homeserver/pubky-homeserver-0.6.0-rc.6/src/discovery/iroh_records.rs:76-119 | when every entry fits, publishing gives the TXT records of the attributes and the snapshot's interval |
| IrohRecords.ShortEntriesFit | vendor/pubky-homeserver/pubky-homeserver-0.6.0-rc.6/src/discovery/iroh_records.rs:78-80 | entries of at most 63 characters always fit a character-string |
| IrohRecords.SamplePublishesFour | vendor/pubky-homeserver/pubky-homeserver-0.6.0-rc.6/src/discovery/iroh_records.rs:127-155 | the test's snapshot publishes four records, relay, two addresses and ALPN, not the three the test expects |
| IrohGateway.DiscoveryIntervalSeconds | vendor/pubky-homeserver/pubky-homeserver-0.6.0-rc.6/src/iroh/gateway.rs:146-148 | a positive whole number of minutes, in seconds |
| IrohGateway.InsertFacts | vendor/pubky-homeserver/pubky-homeserver-0.6.0-rc.6/src/iroh/gateway.rs:122-123 | inserting into a strictly sorted list keeps it strictly sorted and adds exactly the element |
| IrohGateway.SortDedupFacts | vendor/pubky-homeserver/pubky-homeserver-0.6.0-rc.6/src/iroh/gateway.rs:122-123 | sort plus dedup gives a strictly increasing list with exactly the input's elements |
| IrohGateway.StrictlySortedUnique | vendor/pubky-homeserver/pubky-homeserver-0.6.0-rc.6/src/iroh/gateway.rs:122-123 | two strictly increasing lists with the same elements are equal, so the result does not depend on the input's order |
| IrohGateway.QuicUrls | vendor/pubky-homeserver/pubky-homeserver-0.6.0-rc.6/src/iroh/gateway.rs:118-121 | each endpoint address prefixed with "quic://", in order |
| IrohGateway.DiscoverySnapshot | vendor/pubky-homeserver/pubky-homeserver-0.6.0-rc.6/src/iroh/gateway.rs:107-141 | nothing exactly when there is no relay, no address and an empty ALPN; otherwise the endpoint's relay before the configured one, the configured ALPN, TTL and interval, and the sorted, deduplicated union of both address lists |
| KeyRepublisher.BaseInterval | vendor/pubky-homeserver/pubky-homeserver-0.6.0-rc.6/src/core/key_republisher.rs:34-41 | the pkarr cadence, a positive whole number of minutes, in seconds |
| KeyRepublisher.ConfigSnapshot | vendor/pubky-homeserver/pubky-homeserver-0.6.0-rc.6/src/core/key_republisher.rs:44-63 | the configured relay, addresses, ALPN and TTL, with the configured interval of at least a minute |
| KeyRepublisher.PublishPlanFacts | vendor/pubky-homeserver/pubky-homeserver-0.6.0-rc.6/src/core/key_republisher.rs:65-97 | disabled iroh gives no extras and the base interval; a build with records supplies them and the smaller interval; an empty or failed build gives none and the base; the interval never exceeds the base; every extra is an "_iroh" TXT record of the owner |
| KeyRepublisher.GatewayFallback | vendor/pubky-homeserver/pubky-homeserver-0.6.0-rc.6/src/core/key_republisher.rs:65-79 | no gateway and a gateway with nothing to report both fall back to the configuration |
| KeyRepublisher.PortFallbacks | vendor/pubky-homeserver/pubky-homeserver-0.6.0-rc.6/src/core/key_republisher.rs:184-193 | the configured public ports win over the local ones |
| KeyRepublisher.CreateSignedPacket | vendor/pubky-homeserver/pubky-homeserver-0.6.0-rc.6/src/core/key_republisher.rs:171-239 | the records are added in the specified order, extras last |
| KeyRepublisher.PacketFacts | vendor/pubky-homeserver/pubky-homeserver-0.6.0-rc.6/src/core/key_republisher.rs:171-239 | two or three own records at the root with a one-hour TTL, then the extras unchanged; the TLS record has priority 1, the TLS port and a hint of the IP's family; a domain record exactly when a domain is set, with the HTTP port exactly for "localhost"; the address record last of its own |
| KeyRepublisher.IrohRecordsReachPacket | vendor/pubky-homeserver/pubky-homeserver-0.6.0-rc.6/src/core/key_republisher.rs:81-94 | when iroh records are built, the packet holds a record owned by "_iroh._udp.<owner>." |
| Base64.Encode | pubky-swiss-knife/src/utils/recovery.rs:131 | standard padded encoding: four characters for every started group of three bytes |
| Base64.DecodeEncode | pubky-swiss-knife/src/utils/recovery.rs:7-10 | decoding the standard encoding of any bytes gives those bytes back |
| Base64.EncodeDecode | orbital-sovereigns/src/models/identity.rs:89-92 | decoding is canonical: whatever decodes is exactly the encoding of the bytes it yields |
| Base64.DecodeIffEncode | orbital-sovereigns/src/models/identity.rs:66 | text decodes to given bytes exactly when it is their encoding |
| Base64.EncodeChars | orbital-sovereigns/src/models/identity.rs:130-131 | encoding only produces alphabet characters and '=' padding |
| Strings.TrimIsTrimmedSlice | pubky-swiss-knife/src/utils/requests.rs:66 | `trim` yields a slice of its input with no whitespace at either end |
| Strings.TrimIdempotent | portable-homeserver/src/app/config.rs:235 | trimming twice is trimming once |
| Strings.BlankIffAllWhitespace | pubky-swiss-knife/src/utils/requests.rs:66-69 | a line trims to nothing exactly when it is all whitespace |
| Strings.TrimPadded | pubky-swiss-knife/src/utils/requests.rs:73-74 | whitespace around a non-empty trimmed text is removed and nothing else |
| Strings.SplitOnceShape | pubky-swiss-knife/src/utils/requests.rs:70-72 | `split_once` fails exactly when the separator is absent; otherwise the parts rejoin to the input and the first holds no separator |
| Strings.SplitOnceOfJoin | pubky-swiss-knife/src/utils/requests.rs:70-72 | splitting "a:b" with no ':' in a gives back a and b |
| Strings.SplitFacts | orbital-sovereigns/src/components/battle.rs:12 | `split` gives one more piece than separators, none holding the separator, and they rejoin to the input |
| Strings.LinesOfJoin | pubky-swiss-knife/src/utils/requests.rs:65 | `lines` reads back lines joined with newlines |
| Strings.ParseUnsignedOfNat | portable-homeserver/src/app/config.rs:234-245 | the decimal rendering of a number in range parses back to it |
| Strings.LexLessTotal | vendor/pubky-homeserver/pubky-homeserver-0.6.0-rc.6/src/iroh/gateway.rs:123 | the `String` order is total and asymmetric |
| Strings.LexLessTransitive | vendor/pubky-homeserver/pubky-homeserver-0.6.0-rc.6/src/iroh/gateway.rs:123 | the `String` order is transitive |
| Strings.IntToStringInjective | orbital-sovereigns/src/models/match_state.rs:135-137 | the decimal `Display` of a signed integer determines the integer |
| LineParsing.CollectOkIff | pubky-swiss-knife/src/utils/requests.rs:63-77 | a multi-line field is accepted exactly when every line is |
| LineParsing.ErrorPersists | pubky-swiss-knife/src/utils/requests.rs:72 | once a line is rejected, later lines do not change the outcome |
| LineParsing.FirstProblemWins | pubky-swiss-knife/src/utils/requests.rs:72 | the error reported is that of the first rejected line |
| LineParsing.CollectAll | pubky-swiss-knife/src/utils/requests.rs:74 | lines that each carry an item give those items in order |
| LineParsing.CollectStep | pubky-swiss-knife/src/utils/requests.rs:64-75 | one more line: a blank line adds nothing, an item is appended, and an error is the final result |

## Left out

- Rendering: the `rsx!` bodies of every tab, panel and component, and the styles. They carry no behaviour beyond the rules modelled above.
- Calls into the Pubky client: signup, signin, sessions, auth flows, PKDNS publish and lookup, token signing and capability parsing. They are foreign code. Orbital Sovereigns' use of storage is modelled with storage as a map from path to stored text.
- Threads and async plumbing:
  - the settings writer's debounce thread (pubky-swiss-knife/src/utils/settings.rs:165-191);
  - `run_request` (pubky-swiss-knife/src/utils/requests.rs:38-61);
  - the running of spawned tasks, whose completion is modelled as its own step;
  - the iroh gateway's accept and pump loops;
  - the key republisher's periodic loop;
  - the log store's lock, its atomic counter and its broadcast channel (portable-homeserver/src/app/logs.rs:117-119);
  - tracing initialisation.
- Floating point: ship positions and velocities are an abstract `Vector3` whose arithmetic is a `Physics` parameter. The hit chance is a dice parameter that says whether a shot hits. Parsing the numbers of a typed vector and the arena radius are left out.
- Hashing and cryptography: the SHA-256 state digest and blueprint signature, the ChaCha20-Poly1305 vault envelope, deriving a keypair from a secret (a parameter) and QR encoding.
- Platform code:
  - JNI and Android paths, including the Android temp-directory setup and the 100 ms pause (portable-homeserver/src/app/tasks.rs:165-231);
  - the IPv4-preference patch of the HTTP client and building that client (pubky-swiss-knife/src/utils/transport.rs:14-66);
  - building the Pubky facade (orbital-sovereigns/src/services/pubky_facade.rs:77-86);
  - the launchers.
- File and network I/O. The models receive the following as inputs:
  - recovery files, settings files, `config.toml`, the build script's file system, and the manifest's XML tree;
  - the pkarr client's records and the endpoint's address.

  Reading and writing recovery files (pubky-swiss-knife/src/utils/recovery.rs:17-40) is not modelled.
- The manifest script's argument parsing, XML parsing, indentation and serialisation. The script is modelled on an element tree of tags and attributes, without text or tails.
- Timestamp formatting (portable-homeserver/src/app/logs.rs:224-228) and wall-clock readings. Times are values passed in.
- Library parsers are parameters and are not re-specified: socket and IP addresses, URLs, z-base-32 public keys, log levels and post kinds. The same holds for `Uuid` generation. HTTP header names are the exception: the token rule of section 5.6.2 of RFC 9110, lower-cased (`SwissRequests.ParseHeaderName`), stands in for `HeaderName::from_str`.
- The pubky.app objects' `validate` and serde's `to_string_pretty` are parameters of the Social buttons. The constructors `PubkyAppUser::new`, `PubkyAppPost::new` and `PubkyAppTag::new` are taken to store the fields as given; any sanitising they do is library code and is not part of this model. The ids and storage paths of posts and tags are not modelled.
- `toml::to_string_pretty` and `ConfigToml::from_file` are the library's renderer and parser. `HomeConfig.SaveTwiceUnchanged` and `HomeConfig.ReloadAfterSave` assume that a rendered configuration parses back to itself (`TomlRoundTrips`).
- Parts of the vendored homeserver:
  - building and signing the pkarr `SignedPacket`, and its 1000-byte limit;
  - the conversion of an HTTPS target name, which the model treats as always valid;
  - the `InvalidOwner` error, since an owner name built from a public key is always a valid DNS name;
  - the gateway's online-wait timeout, which only delays the snapshot;
  - the tracing messages of the map-size reader.
- OrbitalShip.TotalMass: the `u32` sum of module masses is taken without overflow. `OrbitalArena.FromBlueprint` wraps it where it feeds a ship, as a release build does.
- OrbitalShip.HullIntegrityOfArmouring: the `u32` sum is taken without overflow.
- OrbitalArena.Advanced: the `u32` round counter is unbounded, so its overflow after 2^32 rounds is not modelled.
- OrbitalArena.RngSeedFacts: the `u64` sum of seed and round is taken without wrap-around.
- IrohGateway.DiscoveryIntervalSeconds: `minutes * 60` is taken without `u64` overflow.
- KeyRepublisher.BaseInterval: `minutes * 60` is taken without `u64` overflow.
- HomeLogs.LogStore.Push: the `u64` sequence counter does not wrap.
- OrbitalArena.Damaged and OrbitalArena.DamageFacts: the `i32` hull and shield are unbounded, so `hull - remaining` on a hull near `i32::MIN` (orbital-sovereigns/src/models/arena.rs:67-77) is not checked for overflow.
- OrbitalBattle.Strength: the `i32` sums of the clamped shields and hulls in the hit chance (orbital-sovereigns/src/models/battle.rs:91-95) are taken without overflow.
- OrbitalBattle.Play and OrbitalBattle.TurnEffects: a Brace adds the restored amount to the `i32` shield (orbital-sovereigns/src/models/battle.rs:120 and 173) without overflow, so a shield near `i32::MAX` does not wrap.
- IrohRecords.PublishFacts: the TTL is a natural number rather than a `u32`.

## Where the code is followed

- `IrohDiscoverySnapshot::is_empty` counts a snapshot as empty only when its ALPN is `Some("")` (vendor/pubky-homeserver/pubky-homeserver-0.6.0-rc.6/src/discovery/iroh_records.rs:27-31). A snapshot with no ALPN at all is not empty. This is modelled as written.
- The window (`HomeUi`) loads and reloads `config.toml` through `load_config_form_from_dir` as written, which joins the untrimmed directory (portable-homeserver/src/app/config.rs:97, called from portable-homeserver/src/app/ui.rs:20 and 112). The corrected loader appears only in the lemmas of the finding below.
- The test at vendor/pubky-homeserver/pubky-homeserver-0.6.0-rc.6/src/discovery/iroh_records.rs:139 expects three records. The code at lines 76-113 builds four for that snapshot, and the model follows the code (see the findings).

## Findings

| source | as written | input that shows it | evidently intended | confidence | as-written member | corrected member |
|---|---|---|---|---|---|---|
| portable-homeserver/src/app/config.rs:97 | `load_config_form_from_dir` joins the untrimmed directory with "config.toml", but `persist_config_form` (lines 126-134) writes under the trimmed directory | data directory "/srv/pubky " with a form that differs from the defaults: saving writes "/srv/pubky/config.toml", and reloading reads "/srv/pubky /config.toml", so the default form comes back | load from the trimmed directory, as saving does | not executed | HomeConfig.ReloadAsWrittenMissesSavedFile | HomeConfig.ReloadAfterSave |
| vendor/pubky-homeserver/pubky-homeserver-0.6.0-rc.6/src/discovery/iroh_records.rs:139 | the test asserts that the publication has 3 records | the test's own snapshot: a relay, two direct addresses, ALPN "pubky/iroh-homeserver/0" and TTL 300, for which lines 76-113 build 4 records | 4 records, one per relay, address and non-empty ALPN | not executed | IrohRecords.SamplePublishesFour | IrohRecords.PublishFacts |
