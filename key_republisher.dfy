/** The homeserver's pkarr packet: which `_iroh` records join it and how
    often it is republished, and the records it holds. */
module KeyRepublisher {
  import opened Wrappers
  import opened DnsRecords
  import opened IrohRecords
  import opened IrohGateway

  /** A `u16` port. */
  type Port = n: nat | n < 0x1_0000

  /** The `[pkdns]` settings the packet uses. */
  datatype PkdnsToml = PkdnsToml(
    publicIp: IpAddr,
    publicPubkyTlsPort: Option<Port>,
    publicIcannHttpPort: Option<Port>,
    icannDomain: Option<string>)

  /** The pkarr republish cadence in seconds. */
  function BaseInterval(pkarrPublishIntervalMinutes: Positive): (r: nat)
    ensures r >= 60 && r % 60 == 0 && r / 60 == pkarrPublishIntervalMinutes
  {
    pkarrPublishIntervalMinutes * 60
  }

  /** The `config_snapshot` closure: the `[discovery.iroh]` settings as a
      snapshot. */
  function ConfigSnapshot(iroh: IrohToml): (s: Snapshot)
    ensures s.publishInterval >= 60
    ensures s.alpn == Some(iroh.alpn) && s.txtTtl == iroh.txtTtlSeconds
    ensures s.relayUrl == iroh.relayUrl && s.directAddresses == iroh.directAddresses
  {
    Snapshot(iroh.relayUrl, iroh.directAddresses, Some(iroh.alpn), iroh.txtTtlSeconds, DiscoveryIntervalSeconds(iroh))
  }

  /** The snapshot to publish. `gateway` is `None` when there is no
      gateway, and otherwise what the gateway's `discovery_snapshot`
      returned; the configuration is the fallback in both cases. */
  function ChosenSnapshot(iroh: IrohToml, gateway: Option<Option<Snapshot>>): Snapshot
  {
    match gateway
    case Some(Some(s)) => s
    case _ => ConfigSnapshot(iroh)
  }

  /** The extra records and the publish interval chosen by `start`. */
  function PublishPlan(owner: string, pkarrMinutes: Positive, iroh: IrohToml, gateway: Option<Option<Snapshot>>)
    : (seq<ResourceRecord>, nat)
  {
    var base := BaseInterval(pkarrMinutes);
    if !iroh.enabled then ([], base)
    else match Publish(owner, ChosenSnapshot(iroh, gateway))
      case Ok(publication) =>
        if publication.records != [] then
          (publication.records, if publication.publishInterval < base then publication.publishInterval else base)
        else ([], base)
      case Err(_) => ([], base)
  }

  /** With iroh disabled there are no extras and the base interval
      applies. Otherwise a build that yields records supplies them as the
      extras, with the smaller of its interval and the base; an empty
      build or a failed one gives no extras and the base interval. The
      interval never exceeds the base, and every extra is an `_iroh` TXT
      record of the owner. */
  lemma PublishPlanFacts(owner: string, pkarrMinutes: Positive, iroh: IrohToml, gateway: Option<Option<Snapshot>>)
    ensures var (extras, interval) := PublishPlan(owner, pkarrMinutes, iroh, gateway);
      var base := BaseInterval(pkarrMinutes);
      var built := Publish(owner, ChosenSnapshot(iroh, gateway));
      && interval <= base
      && (!iroh.enabled ==> extras == [] && interval == base)
      && (iroh.enabled && built.Ok? && built.value.records != [] ==>
            extras == built.value.records
            && interval == (if built.value.publishInterval < base then built.value.publishInterval else base))
      && (iroh.enabled && (built.Err? || built.value.records == []) ==> extras == [] && interval == base)
      && (forall i :: 0 <= i < |extras| ==>
            extras[i].name == OwnerName(owner) && extras[i].data.Txt? && extras[i].ttl == ChosenSnapshot(iroh, gateway).txtTtl)
  {
    PublishFacts(owner, ChosenSnapshot(iroh, gateway));
  }

  /** A missing gateway and a gateway with nothing to report both fall
      back to the configuration, and a gateway that reports exactly the
      configured snapshot changes nothing. */
  lemma GatewayFallback(owner: string, pkarrMinutes: Positive, iroh: IrohToml)
    ensures PublishPlan(owner, pkarrMinutes, iroh, None) == PublishPlan(owner, pkarrMinutes, iroh, Some(None))
    ensures PublishPlan(owner, pkarrMinutes, iroh, Some(Some(ConfigSnapshot(iroh))))
            == PublishPlan(owner, pkarrMinutes, iroh, None)
  {
  }

  /** Every packet record lives one hour. */
  const PacketTtl: nat := 60 * 60

  /** The root of the packet's zone. */
  const RootName: string := "."

  function TlsPort(pkdns: PkdnsToml, localTlsPort: Port): Port
  {
    pkdns.publicPubkyTlsPort.UnwrapOr(localTlsPort)
  }

  function HttpPort(pkdns: PkdnsToml, localHttpPort: Port): Port
  {
    pkdns.publicIcannHttpPort.UnwrapOr(localHttpPort)
  }

  /** The configured public ports win; the local ports are the fallback. */
  lemma PortFallbacks(pkdns: PkdnsToml, localHttpPort: Port, localTlsPort: Port)
    ensures pkdns.publicPubkyTlsPort.None? ==> TlsPort(pkdns, localTlsPort) == localTlsPort
    ensures pkdns.publicPubkyTlsPort.Some? ==> TlsPort(pkdns, localTlsPort) == pkdns.publicPubkyTlsPort.value
    ensures pkdns.publicIcannHttpPort.None? ==> HttpPort(pkdns, localHttpPort) == localHttpPort
    ensures pkdns.publicIcannHttpPort.Some? ==> HttpPort(pkdns, localHttpPort) == pkdns.publicIcannHttpPort.value
  {
  }

  /** The HTTPS record for Pubky TLS clients: priority 1 at the root, with
      the TLS port and the public IP as the hint of its family (sections
      7.2 and 7.3 of RFC 9460). */
  function TlsRecord(ip: IpAddr, tlsPort: Port): ResourceRecord
  {
    var hints := match ip
      case V4(bits) => ([bits], [])
      case V6(bits) => ([], [bits]);
    ResourceRecord(RootName, IN, PacketTtl, Https(1, RootName, Some(tlsPort), hints.0, hints.1, None))
  }

  /** The HTTPS record for browsers: priority 10 targeting the ICANN
      domain, with the HTTP port parameter only for "localhost". */
  function DomainRecord(domain: string, httpPort: Port): ResourceRecord
  {
    ResourceRecord(RootName, IN, PacketTtl,
      Https(10, domain, None, [], [], if domain == "localhost" then Some(httpPort) else None))
  }

  /** The record list of `create_signed_packet`, in order. */
  function PacketRecords(pkdns: PkdnsToml, localHttpPort: Port, localTlsPort: Port, extras: seq<ResourceRecord>)
    : seq<ResourceRecord>
  {
    [TlsRecord(pkdns.publicIp, TlsPort(pkdns, localTlsPort))]
    + (if pkdns.icannDomain.Some? then [DomainRecord(pkdns.icannDomain.value, HttpPort(pkdns, localHttpPort))] else [])
    + [ResourceRecord(RootName, IN, PacketTtl, Address(pkdns.publicIp))]
    + extras
  }

  /** `create_signed_packet`: the TLS record, the domain record when a
      domain is set, the address record, then each extra record in turn. */
  method CreateSignedPacket(pkdns: PkdnsToml, localHttpPort: Port, localTlsPort: Port, extras: seq<ResourceRecord>)
    returns (records: seq<ResourceRecord>)
    ensures records == PacketRecords(pkdns, localHttpPort, localTlsPort, extras)
  {
    var publicTlsPort := pkdns.publicPubkyTlsPort.UnwrapOr(localTlsPort);
    var publicHttpPort := pkdns.publicIcannHttpPort.UnwrapOr(localHttpPort);
    records := [TlsRecord(pkdns.publicIp, publicTlsPort)];
    if pkdns.icannDomain.Some? {
      records := records + [DomainRecord(pkdns.icannDomain.value, publicHttpPort)];
    }
    records := records + [ResourceRecord(RootName, IN, PacketTtl, Address(pkdns.publicIp))];
    ghost var lead := records;
    for i := 0 to |extras|
      invariant records == lead + extras[..i]
    {
      records := records + [extras[i]];
    }
    assert extras[..|extras|] == extras;
  }

  /** The packet holds two or three records of its own, all at the root
      with a one-hour TTL, followed by the extras unchanged. The first is
      the priority-1 HTTPS record with the public TLS port and a hint of
      the public IP's family; the last of its own is the address record;
      a domain record is present exactly when a domain is set, and it
      carries the HTTP port exactly when the domain is "localhost". */
  lemma PacketFacts(pkdns: PkdnsToml, localHttpPort: Port, localTlsPort: Port, extras: seq<ResourceRecord>)
    ensures var records := PacketRecords(pkdns, localHttpPort, localTlsPort, extras);
      var own := if pkdns.icannDomain.Some? then 3 else 2;
      && |records| == own + |extras|
      && records[own..] == extras
      && (forall i :: 0 <= i < own ==> records[i].name == RootName && records[i].ttl == PacketTtl)
      && records[0].data.Https? && records[0].data.priority == 1
      && records[0].data.port == Some(TlsPort(pkdns, localTlsPort))
      && (pkdns.publicIp.V4? <==> records[0].data.ipv4Hint == [pkdns.publicIp.bits])
      && (pkdns.publicIp.V6? <==> records[0].data.ipv6Hint == [pkdns.publicIp.bits])
      && records[own - 1].data == Address(pkdns.publicIp)
      && (pkdns.icannDomain.Some? ==>
            records[1].data.Https? && records[1].data.priority == 10
            && records[1].data.target == pkdns.icannDomain.value
            && (records[1].data.httpPort.Some? <==> pkdns.icannDomain.value == "localhost")
            && (records[1].data.httpPort.Some? ==> records[1].data.httpPort.value == HttpPort(pkdns, localHttpPort)))
  {
  }

  /** With iroh records built, the packet holds a record owned by
      `_iroh._udp.<owner>.`. */
  lemma IrohRecordsReachPacket(owner: string, pkarrMinutes: Positive, iroh: IrohToml,
                               gateway: Option<Option<Snapshot>>, pkdns: PkdnsToml, localHttpPort: Port, localTlsPort: Port)
    requires iroh.enabled
    requires var built := Publish(owner, ChosenSnapshot(iroh, gateway)); built.Ok? && built.value.records != []
    ensures exists record :: record in PacketRecords(pkdns, localHttpPort, localTlsPort, PublishPlan(owner, pkarrMinutes, iroh, gateway).0)
                             && record.name == OwnerName(owner)
  {
    var extras := PublishPlan(owner, pkarrMinutes, iroh, gateway).0;
    PublishPlanFacts(owner, pkarrMinutes, iroh, gateway);
    PacketFacts(pkdns, localHttpPort, localTlsPort, extras);
    var records := PacketRecords(pkdns, localHttpPort, localTlsPort, extras);
    var own := if pkdns.icannDomain.Some? then 3 else 2;
    assert records[own] == extras[0];
    assert records[own] in records;
  }
}
