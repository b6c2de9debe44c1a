/** Iroh discovery in the Swiss Knife: folding the `_iroh` TXT attributes of
    a homeserver's pkarr packet into discovery details, rendering them,
    turning the published `quic://` addresses into socket addresses, and
    rendering a tunnelled HTTP response. URL parsing, DNS lookups, UTF-8
    decoding and pkarr key parsing are library code and enter as
    parameters. */
module SwissIroh {
  import opened Wrappers
  import opened Strings
  import opened Base64
  import SwissTransport

  /** `IrohDiscoveryDetails`; the relay is held as its serialised URL. */
  datatype Details = Details(relay: Option<string>, directAddresses: seq<string>, alpn: Option<string>)

  /** `IrohDiscoveryDetails::default`. */
  const NoDetails: Details := Details(None, [], None)

  /** `IrohDiscoveryDetails::is_empty`. */
  predicate IsEmpty(d: Details)
  {
    d.relay.None? && d.directAddresses == [] && d.alpn.None?
  }

  /** A resource record of a pkarr packet; the attributes of a TXT record
      are its `key=value` strings as parsed by the DNS library. */
  datatype RData = Txt(attrs: map<string, Option<string>>) | OtherRData
  datatype ResourceRecord = ResourceRecord(name: string, rdata: RData)

  /** `Url::parse` followed by serialisation; `None` for an invalid URL. */
  type UrlParser = string -> Option<string>

  /** The label that marks the records that carry discovery attributes. */
  const IrohLabel: string := "_iroh._udp"

  /** The value of attribute `key` as read by the fold: only from TXT
      records whose name contains `_iroh._udp`, and only when the
      attribute has a value. */
  function Attr(record: ResourceRecord, key: string): Option<string>
  {
    if Contains(record.name, IrohLabel) && record.rdata.Txt? && key in record.rdata.attrs
    then record.rdata.attrs[key]
    else None
  }

  function RelayError(raw: string): string
  {
    "invalid relay URL in _iroh record: " + raw
  }

  /** One iteration of the record loop of `resolve_iroh_records`. */
  function FoldStep(d: Details, record: ResourceRecord, parseUrl: UrlParser): Result<Details, string>
  {
    var withAddr := match Attr(record, "addr")
      case Some(a) => d.(directAddresses := d.directAddresses + [a])
      case None => d;
    var withRelay: Result<Details, string> := match Attr(record, "relay")
      case Some(raw) =>
        if withAddr.relay.Some? then Ok(withAddr)
        else (match parseUrl(raw)
          case None => Err(RelayError(raw))
          case Some(url) => Ok(withAddr.(relay := Some(url))))
      case None => Ok(withAddr);
    match withRelay
    case Err(e) => Err(e)
    case Ok(d2) =>
      match Attr(record, "alpn")
      case Some(a) => Ok(d2.(alpn := Some(a)))
      case None => Ok(d2)
  }

  /** The record loop from the details `d` onwards. */
  function Fold(records: seq<ResourceRecord>, d: Details, parseUrl: UrlParser): Result<Details, string>
  {
    if records == [] then Ok(d)
    else match FoldStep(d, records[0], parseUrl)
      case Err(e) => Err(e)
      case Ok(d2) => Fold(records[1..], d2, parseUrl)
  }

  /** The outcome of `resolve_iroh_records` once the packet is fetched. */
  function ResolveSpec(records: seq<ResourceRecord>, parseUrl: UrlParser): Result<Option<Details>, string>
  {
    match Fold(records, NoDetails, parseUrl)
    case Err(e) => Err(e)
    case Ok(d) => if IsEmpty(d) then Ok(None) else Ok(Some(d))
  }

  /** `resolve_iroh_records` after the pkarr lookup, which is not part of
      this model: fold the records into details, `None` when empty. */
  method ResolveIrohRecords(records: seq<ResourceRecord>, parseUrl: UrlParser)
    returns (r: Result<Option<Details>, string>)
    ensures r == ResolveSpec(records, parseUrl)
    ensures r.Ok? ==> (r.value.None? <==> Fold(records, NoDetails, parseUrl).Ok?
                                          && IsEmpty(Fold(records, NoDetails, parseUrl).value))
  {
    var details := NoDetails;
    var i := 0;
    while i < |records|
      invariant 0 <= i <= |records|
      invariant Fold(records, NoDetails, parseUrl) == Fold(records[i..], details, parseUrl)
    {
      var record := records[i];
      assert records[i..][1..] == records[i + 1..];
      match Attr(record, "addr") {
        case Some(a) => details := details.(directAddresses := details.directAddresses + [a]);
        case None =>
      }
      match Attr(record, "relay") {
        case Some(raw) =>
          if details.relay.None? {
            match parseUrl(raw) {
              case None => return Err(RelayError(raw));
              case Some(url) => details := details.(relay := Some(url));
            }
          }
        case None =>
      }
      match Attr(record, "alpn") {
        case Some(a) => details := details.(alpn := Some(a));
        case None =>
      }
      i := i + 1;
    }
    if IsEmpty(details) {
      r := Ok(None);
    } else {
      r := Ok(Some(details));
    }
  }

  /** The `addr` values of the records, in record order. */
  function AddrValues(records: seq<ResourceRecord>): seq<string>
  {
    if records == [] then []
    else (match Attr(records[0], "addr") case Some(a) => [a] case None => []) + AddrValues(records[1..])
  }

  /** The first `relay` value of the records. */
  function FirstRelay(records: seq<ResourceRecord>): Option<string>
  {
    if records == [] then None
    else if Attr(records[0], "relay").Some? then Attr(records[0], "relay")
    else FirstRelay(records[1..])
  }

  /** The last `alpn` value of the records. */
  function LastAlpn(records: seq<ResourceRecord>): Option<string>
  {
    if records == [] then None
    else match LastAlpn(records[1..])
      case Some(a) => Some(a)
      case None => Attr(records[0], "alpn")
  }

  /** What folding `records` onto `d` amounts to, stated attribute by
      attribute: addresses are appended in record order, the first relay
      wins (and aborts the fold when it is not a URL), the last ALPN
      wins. */
  function Merged(records: seq<ResourceRecord>, d: Details, parseUrl: UrlParser): Result<Details, string>
  {
    var alpn := if LastAlpn(records).Some? then LastAlpn(records) else d.alpn;
    if d.relay.Some? || FirstRelay(records).None? then
      Ok(Details(d.relay, d.directAddresses + AddrValues(records), alpn))
    else match parseUrl(FirstRelay(records).value)
      case None => Err(RelayError(FirstRelay(records).value))
      case Some(url) => Ok(Details(Some(url), d.directAddresses + AddrValues(records), alpn))
  }

  /** The record loop computes exactly the attribute-wise merge. */
  lemma {:induction false} FoldIsMerge(records: seq<ResourceRecord>, d: Details, parseUrl: UrlParser)
    ensures Fold(records, d, parseUrl) == Merged(records, d, parseUrl)
    decreases |records|
  {
    if records == [] {
      assert d.directAddresses + [] == d.directAddresses;
    } else {
      var rec := records[0];
      var rest := records[1..];
      match FoldStep(d, rec, parseUrl)
      case Err(e) =>
        assert Attr(rec, "relay").Some? && d.relay.None?;
        assert FirstRelay(records) == Attr(rec, "relay");
      case Ok(d2) =>
        FoldIsMerge(rest, d2, parseUrl);
        MergeStep(rec, rest, d, d2, parseUrl);
    }
  }

  /** One record moved from the list into the accumulated details leaves
      the merge unchanged. */
  lemma MergeStep(rec: ResourceRecord, rest: seq<ResourceRecord>, d: Details, d2: Details,
                  parseUrl: UrlParser)
    requires FoldStep(d, rec, parseUrl) == Ok(d2)
    ensures Merged(rest, d2, parseUrl) == Merged([rec] + rest, d, parseUrl)
  {
    var records := [rec] + rest;
    assert records[0] == rec && records[1..] == rest;
    var addr := match Attr(rec, "addr") case Some(a) => [a] case None => [];
    assert AddrValues(records) == addr + AddrValues(rest);
    assert d2.directAddresses == d.directAddresses + addr;
    assert d.directAddresses + AddrValues(records) == d2.directAddresses + AddrValues(rest);
    assert LastAlpn(records) == if LastAlpn(rest).Some? then LastAlpn(rest) else Attr(rec, "alpn");
    assert d2.alpn == if Attr(rec, "alpn").Some? then Attr(rec, "alpn") else d.alpn;
    assert FirstRelay(records) == if Attr(rec, "relay").Some? then Attr(rec, "relay") else FirstRelay(rest);
    if d.relay.Some? {
      assert d2.relay == d.relay;
    } else if Attr(rec, "relay").Some? {
      assert d2.relay == parseUrl(Attr(rec, "relay").value);
    } else {
      assert d2.relay.None?;
    }
  }

  /** Records whose name lacks `_iroh._udp` contribute nothing. */
  lemma ForeignRecordIgnored(record: ResourceRecord, d: Details, parseUrl: UrlParser)
    requires !Contains(record.name, IrohLabel)
    ensures FoldStep(d, record, parseUrl) == Ok(d)
  {
  }

  /** The resolved details, attribute by attribute; `None` exactly when
      nothing was published. */
  lemma ResolveByAttribute(records: seq<ResourceRecord>, parseUrl: UrlParser)
    ensures FirstRelay(records).Some? && parseUrl(FirstRelay(records).value).None?
            ==> ResolveSpec(records, parseUrl) == Err(RelayError(FirstRelay(records).value))
    ensures FirstRelay(records).None? || parseUrl(FirstRelay(records).value).Some?
            ==> var d := Details(if FirstRelay(records).None? then None else parseUrl(FirstRelay(records).value),
                                 AddrValues(records), LastAlpn(records));
                ResolveSpec(records, parseUrl) == if IsEmpty(d) then Ok(None) else Ok(Some(d))
    ensures ResolveSpec(records, parseUrl) == Ok(None)
            <==> AddrValues(records) == [] && FirstRelay(records).None? && LastAlpn(records).None?
  {
    FoldIsMerge(records, NoDetails, parseUrl);
    assert [] + AddrValues(records) == AddrValues(records);
  }

  /** The placeholder shown when nothing is published. */
  const NoAttributesText: string := "No _iroh TXT attributes published."

  /** The lines of a discovery summary: the relay, the address block, the
      ALPN, each only when present. */
  function SummaryLines(d: Details): seq<string>
  {
    (if d.relay.Some? then ["Relay: " + d.relay.value] else [])
    + (if d.directAddresses != [] then ["Direct addresses:"] + AddressLines(d.directAddresses) else [])
    + (if d.alpn.Some? then ["ALPN: " + d.alpn.value] else [])
  }

  function AddressLines(addrs: seq<string>): seq<string>
  {
    seq(|addrs|, i requires 0 <= i < |addrs| => "  - " + addrs[i])
  }

  /** `format_discovery_summary`: collect the lines, then join them with
      '\n', or the placeholder when there are none. */
  method FormatDiscoverySummary(d: Details) returns (r: string)
    ensures r == if SummaryLines(d) == [] then NoAttributesText else Join(SummaryLines(d), "\n")
  {
    var lines: seq<string> := [];
    if d.relay.Some? {
      lines := lines + ["Relay: " + d.relay.value];
    }
    if d.directAddresses != [] {
      lines := lines + ["Direct addresses:"];
      var i := 0;
      while i < |d.directAddresses|
        invariant 0 <= i <= |d.directAddresses|
        invariant lines == (if d.relay.Some? then ["Relay: " + d.relay.value] else [])
                           + ["Direct addresses:"] + AddressLines(d.directAddresses[..i])
      {
        assert AddressLines(d.directAddresses[..i + 1])
               == AddressLines(d.directAddresses[..i]) + ["  - " + d.directAddresses[i]];
        lines := lines + ["  - " + d.directAddresses[i]];
        i := i + 1;
      }
      assert d.directAddresses[..i] == d.directAddresses;
    }
    assert lines == (if d.relay.Some? then ["Relay: " + d.relay.value] else [])
      + (if d.directAddresses != [] then ["Direct addresses:"] + AddressLines(d.directAddresses) else []);
    if d.alpn.Some? {
      lines := lines + ["ALPN: " + d.alpn.value];
    }
    assert lines == SummaryLines(d);
    if lines == [] {
      r := NoAttributesText;
    } else {
      r := Join(lines, "\n");
    }
  }

  lemma {:induction false} JoinStartsWithFirst(xs: seq<string>, sep: string)
    requires xs != []
    ensures StartsWith(Join(xs, sep), xs[0])
  {
  }

  /** The placeholder is shown exactly for empty details: every real
      summary starts with "Relay: ", "Direct addresses:" or "ALPN: ". */
  lemma SummaryPlaceholderIffEmpty(d: Details)
    ensures SummaryLines(d) == [] <==> IsEmpty(d)
    ensures ((if SummaryLines(d) == [] then NoAttributesText else Join(SummaryLines(d), "\n"))
             == NoAttributesText) <==> IsEmpty(d)
  {
    var lines := SummaryLines(d);
    if lines != [] {
      JoinStartsWithFirst(lines, "\n");
      var j := Join(lines, "\n");
      assert j[0] == lines[0][0];
      assert lines[0][0] in "RDA";
      assert NoAttributesText[0] == 'N';
    }
  }

  /** A value that holds no line break: no '\n' and no final '\r'. */
  predicate NoBreak(v: string)
  {
    '\n' !in v && (v == [] || v[|v| - 1] != '\r')
  }

  /** A summary whose values hold no line breaks reads back, line by line,
      as the relay, the address block and the ALPN, in that order. */
  lemma SummaryLinesReadBack(d: Details)
    requires !IsEmpty(d)
    requires d.relay.Some? ==> NoBreak(d.relay.value)
    requires d.alpn.Some? ==> NoBreak(d.alpn.value)
    requires forall a :: a in d.directAddresses ==> NoBreak(a)
    ensures Lines(Join(SummaryLines(d), "\n")) == SummaryLines(d)
  {
    var lines := SummaryLines(d);
    forall i | 0 <= i < |lines|
      ensures PlainLine(lines[i])
    {
      var x := lines[i];
      if x != "Direct addresses:" {
        var prefix, v :| (prefix == "Relay: " || prefix == "  - " || prefix == "ALPN: ")
          && x == prefix + v && NoBreak(v) by {
          PlainLineWitness(d, i);
        }
        PrefixedPlain(prefix, v);
      }
    }
    LinesOfJoin(lines);
  }

  /** A labelled value with no line break is a plain line. */
  lemma PrefixedPlain(prefix: string, v: string)
    requires prefix == "Relay: " || prefix == "  - " || prefix == "ALPN: "
    requires NoBreak(v)
    ensures PlainLine(prefix + v)
  {
    assert '\n' !in prefix && prefix[|prefix| - 1] == ' ';
    var x := prefix + v;
    forall k | 0 <= k < |x|
      ensures x[k] != '\n'
    {
      if k < |prefix| {
        assert x[k] == prefix[k];
      } else {
        assert x[k] == v[k - |prefix|];
      }
    }
    if v == [] {
      assert x == prefix;
    } else {
      assert x[|x| - 1] == v[|v| - 1];
    }
  }

  lemma PlainLineWitness(d: Details, i: nat)
    requires d.relay.Some? ==> NoBreak(d.relay.value)
    requires d.alpn.Some? ==> NoBreak(d.alpn.value)
    requires forall a :: a in d.directAddresses ==> NoBreak(a)
    requires i < |SummaryLines(d)| && SummaryLines(d)[i] != "Direct addresses:"
    ensures exists prefix, v ::
      && (prefix == "Relay: " || prefix == "  - " || prefix == "ALPN: ")
      && SummaryLines(d)[i] == prefix + v && NoBreak(v)
  {
    var r := if d.relay.Some? then ["Relay: " + d.relay.value] else [];
    var m := if d.directAddresses != [] then ["Direct addresses:"] + AddressLines(d.directAddresses) else [];
    var lines := SummaryLines(d);
    if i < |r| {
      assert lines[i] == "Relay: " + d.relay.value;
    } else if i < |r| + |m| {
      var k := i - |r|;
      assert lines[i] == m[k];
      assert k != 0;
      assert m[k] == "  - " + d.directAddresses[k - 1];
      assert d.directAddresses[k - 1] in d.directAddresses;
    } else {
      assert lines[i] == "ALPN: " + d.alpn.value;
    }
  }

  /** The host of a parsed address URL. */
  datatype Host = HostV4(v4bits: nat) | HostV6(v6bits: nat) | Domain(name: string)

  /** What `Url::parse` makes of an `addr` attribute: its scheme, its
      explicit port and its host, if any. */
  datatype AddrUrl = AddrUrl(scheme: string, port: Option<nat>, host: Option<Host>)

  /** `Url::parse` of an `addr` attribute; `None` for an invalid URL. */
  type AddrParser = string -> Option<AddrUrl>

  /** `lookup_host` for a domain and port: the resolved addresses, or the
      resolver's error text. */
  type HostResolver = (string, nat) -> Result<seq<SwissTransport.SocketAddr>, string>

  /** Why `parse_direct_addresses` refused the attributes. */
  datatype AddrProblem =
    | InvalidAddr(value: string)
    | NotQuic(value: string)
    | MissingPort(value: string)
    | MissingHost(value: string)
    | LookupFailed(reason: string)
  {
    function Message(): string
    {
      match this
      case InvalidAddr(v) => "invalid addr attribute in _iroh record: " + v
      case NotQuic(v) => "_iroh addr entry must use quic:// scheme: " + v
      case MissingPort(v) => "missing port in _iroh addr value: " + v
      case MissingHost(v) => "missing host in _iroh addr value: " + v
      case LookupFailed(reason) => reason
    }
  }

  /** The socket addresses one `addr` attribute contributes: checked in the
      order URL, scheme, port, host; an IP host gives one address, a domain
      whatever the resolver returns for it. */
  function EntryAddrs(value: string, parseAddr: AddrParser, lookup: HostResolver)
    : (r: Result<seq<SwissTransport.SocketAddr>, AddrProblem>)
    ensures r.Ok? ==> parseAddr(value).Some? && parseAddr(value).value.scheme == "quic"
                       && parseAddr(value).value.port.Some? && parseAddr(value).value.host.Some?
    ensures r.Ok? && parseAddr(value).value.host.value.HostV4? ==>
              r.value == [SwissTransport.SocketAddr(SwissTransport.V4(parseAddr(value).value.host.value.v4bits),
                                                    parseAddr(value).value.port.value)]
    ensures r.Ok? && parseAddr(value).value.host.value.HostV6? ==>
              r.value == [SwissTransport.SocketAddr(SwissTransport.V6(parseAddr(value).value.host.value.v6bits),
                                                    parseAddr(value).value.port.value)]
  {
    match parseAddr(value)
    case None => Err(InvalidAddr(value))
    case Some(url) =>
      if url.scheme != "quic" then Err(NotQuic(value))
      else if url.port.None? then Err(MissingPort(value))
      else
        var port := url.port.value;
        match url.host
        case None => Err(MissingHost(value))
        case Some(HostV4(bits)) => Ok([SwissTransport.SocketAddr(SwissTransport.V4(bits), port)])
        case Some(HostV6(bits)) => Ok([SwissTransport.SocketAddr(SwissTransport.V6(bits), port)])
        case Some(Domain(name)) =>
          match lookup(name, port)
          case Err(reason) => Err(LookupFailed(reason))
          case Ok(found) => Ok(found)
  }

  /** The addresses of all attributes, in order, before sorting; the first
      refused attribute ends the loop. */
  function Collected(values: seq<string>, parseAddr: AddrParser, lookup: HostResolver)
    : Result<seq<SwissTransport.SocketAddr>, AddrProblem>
  {
    if values == [] then Ok([])
    else match EntryAddrs(values[0], parseAddr, lookup)
      case Err(e) => Err(e)
      case Ok(found) => Then(found, Collected(values[1..], parseAddr, lookup))
  }

  /** `prefix` put in front of a successful result. */
  function Then<E>(prefix: seq<SwissTransport.SocketAddr>, r: Result<seq<SwissTransport.SocketAddr>, E>)
    : Result<seq<SwissTransport.SocketAddr>, E>
  {
    match r
    case Ok(rest) => Ok(prefix + rest)
    case Err(e) => Err(e)
  }

  /** The family of an address in the order of `SocketAddr`: V4 before V6. */
  function Family(a: SwissTransport.SocketAddr): nat
  {
    if a.ip.V4? then 0 else 1
  }

  function Bits(a: SwissTransport.SocketAddr): nat
  {
    match a.ip
    case V4(b) => b
    case V6(b) => b
  }

  /** The order of `SocketAddr`: by family, then by address, then by port. */
  predicate AddrLess(a: SwissTransport.SocketAddr, b: SwissTransport.SocketAddr)
  {
    Family(a) < Family(b)
    || (Family(a) == Family(b) && (Bits(a) < Bits(b) || (Bits(a) == Bits(b) && a.port < b.port)))
  }

  /** The order is total on distinct addresses. */
  lemma AddrLessTotal(a: SwissTransport.SocketAddr, b: SwissTransport.SocketAddr)
    ensures a == b || AddrLess(a, b) || AddrLess(b, a)
    ensures !(AddrLess(a, b) && AddrLess(b, a)) && !AddrLess(a, a)
  {
  }

  /** Strictly increasing: sorted, and no address twice. */
  predicate StrictlySorted(s: seq<SwissTransport.SocketAddr>)
  {
    forall i, j :: 0 <= i < j < |s| ==> AddrLess(s[i], s[j])
  }

  /** `x` placed in a strictly increasing list, unless it is already there. */
  function Insert(x: SwissTransport.SocketAddr, s: seq<SwissTransport.SocketAddr>): seq<SwissTransport.SocketAddr>
  {
    if s == [] then [x]
    else if x == s[0] then s
    else if AddrLess(x, s[0]) then [x] + s
    else [s[0]] + Insert(x, s[1..])
  }

  /** `sort` followed by `dedup`. */
  function SortDedup(xs: seq<SwissTransport.SocketAddr>): seq<SwissTransport.SocketAddr>
  {
    if xs == [] then [] else Insert(xs[0], SortDedup(xs[1..]))
  }

  lemma {:induction false} InsertFacts(x: SwissTransport.SocketAddr, s: seq<SwissTransport.SocketAddr>)
    requires StrictlySorted(s)
    ensures StrictlySorted(Insert(x, s))
    ensures forall a :: a in Insert(x, s) <==> a == x || a in s
  {
    if s != [] && x != s[0] && !AddrLess(x, s[0]) {
      AddrLessTotal(x, s[0]);
      InsertFacts(x, s[1..]);
      var t := Insert(x, s[1..]);
      assert forall a :: a in s <==> a == s[0] || a in s[1..] by {
        assert s == [s[0]] + s[1..];
      }
      forall j | 0 <= j < |t|
        ensures AddrLess(s[0], t[j])
      {
        assert t[j] in t;
        if t[j] != x {
          var k :| 1 <= k < |s| && s[k] == t[j];
        }
      }
    }
  }

  /** The result of `sort` + `dedup` is strictly increasing and holds
      exactly the addresses of the input. */
  lemma {:induction false} SortDedupFacts(xs: seq<SwissTransport.SocketAddr>)
    ensures StrictlySorted(SortDedup(xs))
    ensures forall a :: a in SortDedup(xs) <==> a in xs
  {
    if xs != [] {
      SortDedupFacts(xs[1..]);
      InsertFacts(xs[0], SortDedup(xs[1..]));
      assert forall a :: a in xs <==> a == xs[0] || a in xs[1..] by {
        assert xs == [xs[0]] + xs[1..];
      }
    }
  }

  /** A strictly increasing list is fixed by its elements, so `SortDedup`
      is the only sorted, duplicate-free arrangement of its input. */
  lemma {:induction false} StrictlySortedUnique(s: seq<SwissTransport.SocketAddr>, t: seq<SwissTransport.SocketAddr>)
    requires StrictlySorted(s) && StrictlySorted(t)
    requires forall a :: a in s <==> a in t
    ensures s == t
    decreases |s|
  {
    if s != [] {
      assert s[0] in s;
    }
    if t != [] {
      assert t[0] in t;
    }
    if s != [] && t != [] {
      var i :| 0 <= i < |t| && t[i] == s[0];
      var j :| 0 <= j < |s| && s[j] == t[0];
      AddrLessTotal(s[0], t[0]);
      assert s[0] == t[0];
      forall a | a in s[1..]
        ensures a in t[1..]
      {
        var k :| 1 <= k < |s| && s[k] == a;
        assert AddrLess(s[0], a);
        AddrLessTotal(s[0], a);
        assert a in s;
        var m :| 0 <= m < |t| && t[m] == a;
        assert m != 0;
        assert t[1..][m - 1] == a;
      }
      forall a | a in t[1..]
        ensures a in s[1..]
      {
        var k :| 1 <= k < |t| && t[k] == a;
        assert AddrLess(t[0], a);
        AddrLessTotal(t[0], a);
        assert a in t;
        var m :| 0 <= m < |s| && s[m] == a;
        assert m != 0;
        assert s[1..][m - 1] == a;
      }
      StrictlySortedUnique(s[1..], t[1..]);
      assert s == [s[0]] + s[1..];
      assert t == [t[0]] + t[1..];
    }
  }

  /** The result of `parse_direct_addresses`. */
  function ParsedAddresses(addresses: seq<string>, parseAddr: AddrParser, lookup: HostResolver)
    : Result<seq<SwissTransport.SocketAddr>, AddrProblem>
  {
    match Collected(addresses, parseAddr, lookup)
    case Ok(found) => Ok(SortDedup(found))
    case Err(e) => Err(e)
  }

  /** `parse_direct_addresses`: check and resolve each attribute in turn,
      then sort the addresses and drop duplicates. */
  method ParseDirectAddresses(addresses: seq<string>, parseAddr: AddrParser, lookup: HostResolver)
    returns (r: Result<seq<SwissTransport.SocketAddr>, AddrProblem>)
    ensures r == ParsedAddresses(addresses, parseAddr, lookup)
  {
    var results: seq<SwissTransport.SocketAddr> := [];
    var i := 0;
    assert addresses[i..] == addresses;
    match Collected(addresses, parseAddr, lookup) {
      case Ok(rest) => assert results + rest == rest;
      case Err(_) =>
    }
    while i < |addresses|
      invariant 0 <= i <= |addresses|
      invariant Collected(addresses, parseAddr, lookup)
                == Then(results, Collected(addresses[i..], parseAddr, lookup))
    {
      assert addresses[i..][1..] == addresses[i + 1..];
      match EntryAddrs(addresses[i], parseAddr, lookup) {
        case Err(e) =>
          return Err(e);
        case Ok(found) =>
          match Collected(addresses[i + 1..], parseAddr, lookup) {
            case Ok(rest) =>
              assert results + (found + rest) == (results + found) + rest;
            case Err(_) =>
          }
          results := results + found;
      }
      i := i + 1;
    }
    assert addresses[i..] == [];
    assert results + [] == results;
    return Ok(SortDedup(results));
  }

  /** The attributes are refused exactly when one of them is, and then
      with the problem of the first refused one. */
  lemma {:induction false} CollectedErrors(values: seq<string>, parseAddr: AddrParser, lookup: HostResolver)
    ensures Collected(values, parseAddr, lookup).Err?
            <==> exists k :: 0 <= k < |values| && EntryAddrs(values[k], parseAddr, lookup).Err?
    ensures Collected(values, parseAddr, lookup).Err? ==>
              exists k :: 0 <= k < |values|
                && Collected(values, parseAddr, lookup) == EntryAddrs(values[k], parseAddr, lookup)
                && forall m :: 0 <= m < k ==> EntryAddrs(values[m], parseAddr, lookup).Ok?
  {
    if values != [] {
      CollectedErrors(values[1..], parseAddr, lookup);
      var head := EntryAddrs(values[0], parseAddr, lookup);
      if head.Ok? {
        if exists k :: 0 <= k < |values| && EntryAddrs(values[k], parseAddr, lookup).Err? {
          var k :| 0 <= k < |values| && EntryAddrs(values[k], parseAddr, lookup).Err?;
          assert values[1..][k - 1] == values[k];
        }
        if Collected(values[1..], parseAddr, lookup).Err? {
          var k :| 0 <= k < |values[1..]|
            && Collected(values[1..], parseAddr, lookup) == EntryAddrs(values[1..][k], parseAddr, lookup)
            && forall m :: 0 <= m < k ==> EntryAddrs(values[1..][m], parseAddr, lookup).Ok?;
          assert forall m :: 1 <= m < k + 1 ==> values[m] == values[1..][m - 1];
        }
      }
    }
  }

  /** On success, the collected addresses are exactly those the attributes
      contribute. */
  lemma {:induction false} CollectedContents(values: seq<string>, parseAddr: AddrParser, lookup: HostResolver)
    requires Collected(values, parseAddr, lookup).Ok?
    ensures forall k :: 0 <= k < |values| ==> EntryAddrs(values[k], parseAddr, lookup).Ok?
    ensures forall a :: a in Collected(values, parseAddr, lookup).value <==>
              exists k :: 0 <= k < |values| && a in EntryAddrs(values[k], parseAddr, lookup).value
  {
    if values != [] {
      var found := EntryAddrs(values[0], parseAddr, lookup).value;
      CollectedContents(values[1..], parseAddr, lookup);
      var rest := Collected(values[1..], parseAddr, lookup).value;
      assert Collected(values, parseAddr, lookup).value == found + rest;
      forall k | 1 <= k < |values|
        ensures EntryAddrs(values[k], parseAddr, lookup) == EntryAddrs(values[1..][k - 1], parseAddr, lookup)
      {
      }
      forall a | a in found + rest
        ensures exists k :: 0 <= k < |values| && a in EntryAddrs(values[k], parseAddr, lookup).value
      {
        if a !in found {
          var k :| 0 <= k < |values[1..]| && a in EntryAddrs(values[1..][k], parseAddr, lookup).value;
          assert a in EntryAddrs(values[k + 1], parseAddr, lookup).value;
        }
      }
      forall a | exists k :: 0 <= k < |values| && a in EntryAddrs(values[k], parseAddr, lookup).value
        ensures a in found + rest
      {
        var k :| 0 <= k < |values| && a in EntryAddrs(values[k], parseAddr, lookup).value;
        if k > 0 {
          assert a in EntryAddrs(values[1..][k - 1], parseAddr, lookup).value;
        }
      }
    }
  }

  /** `parse_direct_addresses` fails exactly when some attribute is refused
      (not a URL, not `quic://`, no port, no host, or a failed lookup);
      otherwise its result is strictly increasing, so free of duplicates,
      and holds exactly the addresses the attributes name. */
  lemma ParsedAddressesFacts(addresses: seq<string>, parseAddr: AddrParser, lookup: HostResolver)
    ensures ParsedAddresses(addresses, parseAddr, lookup).Err?
            <==> exists k :: 0 <= k < |addresses| && EntryAddrs(addresses[k], parseAddr, lookup).Err?
    ensures ParsedAddresses(addresses, parseAddr, lookup).Ok? ==>
              var out := ParsedAddresses(addresses, parseAddr, lookup).value;
              StrictlySorted(out)
              && forall a :: a in out <==>
                   exists k :: 0 <= k < |addresses| && a in EntryAddrs(addresses[k], parseAddr, lookup).value
  {
    CollectedErrors(addresses, parseAddr, lookup);
    var c := Collected(addresses, parseAddr, lookup);
    if c.Ok? {
      CollectedContents(addresses, parseAddr, lookup);
      SortDedupFacts(c.value);
    }
  }

  /** `HeaderValue::to_str` accepts visible ASCII and the tab only. */
  predicate VisibleHeaderByte(b: byte)
  {
    32 <= b < 127 || b == 9
  }

  predicate VisibleHeaderValue(value: seq<byte>)
  {
    forall i :: 0 <= i < |value| ==> VisibleHeaderByte(value[i])
  }

  /** Bytes read one character each, as `to_str` does for ASCII. */
  function AsciiText(value: seq<byte>): string
  {
    seq(|value|, i requires 0 <= i < |value| => value[i] as char)
  }

  /** A response header: its (lower-case) name and its raw value. */
  datatype Header = Header(name: string, value: seq<byte>)

  function HeaderLine(h: Header): string
  {
    h.name + ": " + AsciiText(h.value)
  }

  /** The header lines of the rendering: one per header whose value is
      text, in order; the others are skipped. */
  function HeaderLines(headers: seq<Header>): seq<string>
  {
    if headers == [] then []
    else (if VisibleHeaderValue(headers[0].value) then [HeaderLine(headers[0])] else [])
         + HeaderLines(headers[1..])
  }

  /** `String::from_utf8`; `None` for invalid UTF-8. */
  type Utf8Decoder = seq<byte> -> Option<string>

  function BinaryNote(size: nat): string
  {
    "<binary " + NatToString(size) + " bytes>"
  }

  /** The body as shown: its text, or a note of its size. */
  function BodyText(body: seq<byte>, utf8: Utf8Decoder): string
  {
    match utf8(body)
    case Some(text) => text
    case None => BinaryNote(|body|)
  }

  /** The rendering of a tunnelled response: the status line (`version` as
      `Debug` prints it, `status` as `Display` does), the header lines, an
      empty line, and the body. */
  function HttpResponseText(version: string, status: string, headers: seq<Header>, body: seq<byte>,
                            utf8: Utf8Decoder): string
  {
    version + " " + status + "\n" + Join(HeaderLines(headers), "\n") + "\n\n" + BodyText(body, utf8)
  }

  /** `format_http_response`. */
  method FormatHttpResponse(version: string, status: string, headers: seq<Header>, body: seq<byte>,
                            utf8: Utf8Decoder) returns (r: string)
    ensures r == HttpResponseText(version, status, headers, body, utf8)
  {
    var lines: seq<string> := [];
    var i := 0;
    while i < |headers|
      invariant 0 <= i <= |headers|
      invariant HeaderLines(headers) == lines + HeaderLines(headers[i..])
    {
      assert headers[i..][1..] == headers[i + 1..];
      if VisibleHeaderValue(headers[i].value) {
        lines := lines + [HeaderLine(headers[i])];
      }
      i := i + 1;
    }
    assert headers[i..] == [];
    assert lines + [] == lines;
    var bodyText := match utf8(body)
      case Some(text) => text
      case None => BinaryNote(|body|);
    r := version + " " + status + "\n" + Join(lines, "\n") + "\n\n" + bodyText;
  }

  /** A header is shown exactly when its value is text, and then as
      "name: value". */
  lemma {:induction false} HeaderLinesShown(headers: seq<Header>, line: string)
    ensures line in HeaderLines(headers) <==>
              exists k :: 0 <= k < |headers| && VisibleHeaderValue(headers[k].value) && line == HeaderLine(headers[k])
  {
    if headers != [] {
      HeaderLinesShown(headers[1..], line);
      if exists k :: 0 <= k < |headers| && VisibleHeaderValue(headers[k].value) && line == HeaderLine(headers[k]) {
        var k :| 0 <= k < |headers| && VisibleHeaderValue(headers[k].value) && line == HeaderLine(headers[k]);
        if k > 0 {
          assert headers[1..][k - 1] == headers[k];
        }
      }
      if line in HeaderLines(headers[1..]) {
        var k :| 0 <= k < |headers[1..]| && VisibleHeaderValue(headers[1..][k].value) && line == HeaderLine(headers[1..][k]);
        assert headers[k + 1] == headers[1..][k];
      }
    }
  }

  /** The rendering opens with the status line and ends with the body
      text, or with "<binary N bytes>" when the body is not UTF-8. */
  lemma HttpResponseShape(version: string, status: string, headers: seq<Header>, body: seq<byte>,
                          utf8: Utf8Decoder)
    ensures StartsWith(HttpResponseText(version, status, headers, body, utf8), version + " " + status + "\n")
    ensures utf8(body).Some? ==> EndsWith(HttpResponseText(version, status, headers, body, utf8), utf8(body).value)
    ensures utf8(body).None? ==> EndsWith(HttpResponseText(version, status, headers, body, utf8), BinaryNote(|body|))
  {
    var head := version + " " + status + "\n";
    var middle := Join(HeaderLines(headers), "\n") + "\n\n";
    var b := BodyText(body, utf8);
    var r := HttpResponseText(version, status, headers, body, utf8);
    assert r == head + (middle + b);
    assert r[..|head|] == head;
    assert r == (head + middle) + b;
    assert r[|r| - |b|..] == b;
  }

  /** A URL a homeserver key may be read from: scheme, host (if any) and
      path. */
  datatype KeyUrl = KeyUrl(scheme: string, host: Option<string>, path: string)

  /** The first segment of a path once its leading slashes are removed. */
  function FirstSegment(path: string): string
  {
    var t := TrimStartMatches(path, "/");
    match IndexOf(t, '/')
    case None => t
    case Some(i) => if i <= |t| then t[..i] else t
  }

  /** `parse_homeserver_key`; `isKey` says whether a text parses as a
      public key. For `pubky` the key is the host, or else the first path
      segment; for `https` and `http` it is the host without one ".pubky"
      suffix; other schemes carry no key. */
  function ParseHomeserverKey(url: KeyUrl, isKey: string -> bool): (r: Option<string>)
    ensures r.Some? ==> isKey(r.value)
    ensures r.Some? ==> url.scheme == "pubky" || url.scheme == "https" || url.scheme == "http"
    ensures r.Some? && url.scheme != "pubky" ==> url.host.Some? && StartsWith(url.host.value, r.value)
  {
    if url.scheme == "pubky" then
      var candidate := if url.host.Some? then url.host.value else FirstSegment(url.path);
      if isKey(candidate) then Some(candidate) else None
    else if url.scheme == "https" || url.scheme == "http" then
      match url.host
      case None => None
      case Some(host) =>
        var candidate := if EndsWith(host, ".pubky") then host[..|host| - 6] else host;
        if isKey(candidate) then Some(candidate) else None
    else None
  }

  /** A key given as the host of a `pubky://` URL is read back, whatever the
      path. */
  lemma PubkySchemeKey(key: string, path: string, isKey: string -> bool)
    requires isKey(key)
    ensures ParseHomeserverKey(KeyUrl("pubky", Some(key), path), isKey) == Some(key)
  {
  }

  /** A key given as "<key>.pubky" host of an `https://` URL is read back. */
  lemma HttpsSubdomainKey(key: string, path: string, isKey: string -> bool)
    requires isKey(key)
    ensures ParseHomeserverKey(KeyUrl("https", Some(key + ".pubky"), path), isKey) == Some(key)
  {
    var host := key + ".pubky";
    assert host[|host| - 6..] == ".pubky";
    assert host[..|host| - 6] == key;
  }

  /** Without a host, a `pubky` URL's key is its first path segment, however
      many slashes lead it. */
  lemma PubkyPathKey(slashes: nat, key: string, rest: string, isKey: string -> bool)
    requires isKey(key) && key != [] && '/' !in key
    ensures ParseHomeserverKey(KeyUrl("pubky", None, Repeat('/', slashes) + key + "/" + rest), isKey) == Some(key)
  {
    FirstSegmentOf(slashes, key, rest);
  }

  lemma FirstSegmentOf(slashes: nat, key: string, rest: string)
    requires key != [] && '/' !in key
    ensures FirstSegment(Repeat('/', slashes) + key + "/" + rest) == key
  {
    var t := key + ['/'] + rest;
    assert Repeat('/', slashes) + key + "/" + rest == Repeat('/', slashes) + t;
    assert t[0] == key[0];
    TrimSlashes(slashes, t);
    SegmentOfTrimmed(key, rest);
  }

  /** On a text that no longer starts with a slash, the first segment is
      everything up to the first slash. */
  lemma SegmentOfTrimmed(key: string, rest: string)
    requires key != [] && '/' !in key
    ensures IndexOf(key + ['/'] + rest, '/') == Some(|key|)
    ensures (key + ['/'] + rest)[..|key|] == key
  {
    IndexOfAfter(key, '/', rest);
  }

  lemma {:induction false} TrimSlashes(n: nat, s: string)
    requires s != [] && s[0] != '/'
    ensures TrimStartMatches(Repeat('/', n) + s, "/") == s
  {
    if n > 0 {
      RepeatedSlashTail(n, s);
      TrimOneSlash(Repeat('/', n) + s);
      TrimSlashes(n - 1, s);
    } else {
      assert Repeat('/', 0) + s == s;
      assert !StartsWith(s, "/");
    }
  }

  lemma RepeatedSlashTail(n: nat, s: string)
    requires n > 0
    ensures StartsWith(Repeat('/', n) + s, "/")
    ensures (Repeat('/', n) + s)[1..] == Repeat('/', n - 1) + s
  {
    var t := Repeat('/', n) + s;
    assert t[..1] == "/";
  }

  lemma TrimOneSlash(t: string)
    requires StartsWith(t, "/")
    ensures TrimStartMatches(t, "/") == TrimStartMatches(t[1..], "/")
  {
  }
}
