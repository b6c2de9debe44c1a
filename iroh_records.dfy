/** The `_iroh` TXT records that advertise a homeserver's iroh endpoint:
    one `key=value` character-string per record, in the style of section
    6.3 of RFC 6763. */
module IrohRecords {
  import opened Wrappers
  import opened DnsRecords

  /** `IrohDiscoverySnapshot`. URLs are given as their serialised text
      and the publish interval in whole seconds. */
  datatype Snapshot = Snapshot(
    relayUrl: Option<string>,
    directAddresses: seq<string>,
    alpn: Option<string>,
    txtTtl: nat,
    publishInterval: nat)

  /** `IrohDiscoverySnapshot::is_empty`. */
  predicate IsEmpty(s: Snapshot)
  {
    s.relayUrl.None? && s.directAddresses == [] && s.alpn == Some("")
  }

  /** Only a snapshot with no relay, no address and an ALPN that is
      present but empty is empty; an absent ALPN does not count as empty. */
  lemma IsEmptyFacts(relay: string, address: string, ttl: nat, interval: nat)
    ensures IsEmpty(Snapshot(None, [], Some(""), ttl, interval))
    ensures !IsEmpty(Snapshot(None, [], None, ttl, interval))
    ensures !IsEmpty(Snapshot(Some(relay), [], Some(""), ttl, interval))
    ensures !IsEmpty(Snapshot(None, [address], Some(""), ttl, interval))
  {
  }

  datatype Publication = Publication(records: seq<ResourceRecord>, publishInterval: nat)

  /** `IrohRecordError::InvalidAttribute`, naming the attribute. The name
      of a public key's `_iroh` owner is always valid, so
      `InvalidOwner` does not arise. */
  datatype RecordError = InvalidAttribute(attribute: string)

  /** The owner name of the records. */
  function OwnerName(owner: string): string
  {
    "_iroh._udp." + owner + "."
  }

  /** One attribute: its key and its value. */
  datatype Attribute = Attribute(key: string, value: string)

  function Entry(a: Attribute): string
  {
    a.key + "=" + a.value
  }

  function TxtRecord(owner: string, ttl: nat, a: Attribute): ResourceRecord
  {
    ResourceRecord(OwnerName(owner), IN, ttl, Txt([Entry(a)]))
  }

  /** The attributes a snapshot publishes, in order: the relay, each
      direct address, and a non-empty ALPN. */
  function Attributes(s: Snapshot): seq<Attribute>
  {
    RelayAttributes(s) + AddressAttributes(s.directAddresses) + AlpnAttributes(s)
  }

  function RelayAttributes(s: Snapshot): (r: seq<Attribute>)
    ensures |r| == (if s.relayUrl.Some? then 1 else 0)
  {
    if s.relayUrl.Some? then [Attribute("relay", s.relayUrl.value)] else []
  }

  function AddressAttributes(addresses: seq<string>): (r: seq<Attribute>)
    ensures |r| == |addresses| && forall i :: 0 <= i < |r| ==> r[i] == Attribute("addr", addresses[i])
  {
    seq(|addresses|, i requires 0 <= i < |addresses| => Attribute("addr", addresses[i]))
  }

  function AlpnAttributes(s: Snapshot): (r: seq<Attribute>)
    ensures |r| == (if s.alpn.Some? && s.alpn.value != "" then 1 else 0)
  {
    if s.alpn.Some? && s.alpn.value != "" then [Attribute("alpn", s.alpn.value)] else []
  }

  /** The records of `attrs` in order, or the error of the first attribute
      whose entry does not fit a character-string. */
  function Records(owner: string, ttl: nat, attrs: seq<Attribute>): Result<seq<ResourceRecord>, RecordError>
  {
    if attrs == [] then Ok([])
    else match Records(owner, ttl, attrs[..|attrs| - 1])
      case Err(e) => Err(e)
      case Ok(rs) =>
        var a := attrs[|attrs| - 1];
        if FitsCharacterString(Entry(a)) then Ok(rs + [TxtRecord(owner, ttl, a)]) else Err(InvalidAttribute(a.key))
  }

  /** `build_publication` on values. */
  function Publish(owner: string, s: Snapshot): Result<Publication, RecordError>
  {
    if s.txtTtl == 0 then Ok(Publication([], s.publishInterval))
    else match Records(owner, s.txtTtl, Attributes(s))
      case Err(e) => Err(e)
      case Ok(records) => Ok(Publication(records, s.publishInterval))
  }

  /** The records are built exactly when every entry fits, one per
      attribute and in the attributes' order; otherwise the error names
      the first attribute that does not fit. */
  lemma RecordsFacts(owner: string, ttl: nat, attrs: seq<Attribute>)
    ensures var r := Records(owner, ttl, attrs);
      && (r.Ok? <==> forall i :: 0 <= i < |attrs| ==> FitsCharacterString(Entry(attrs[i])))
      && (r.Ok? ==> |r.value| == |attrs| && forall i :: 0 <= i < |attrs| ==> r.value[i] == TxtRecord(owner, ttl, attrs[i]))
      && (r.Err? ==>
            exists k :: (0 <= k < |attrs| && !FitsCharacterString(Entry(attrs[k]))
              && r.error == InvalidAttribute(attrs[k].key)
              && forall i :: 0 <= i < k ==> FitsCharacterString(Entry(attrs[i]))))
  {
    RecordsOkIff(owner, ttl, attrs);
    if Records(owner, ttl, attrs).Err? {
      var k := RecordsFirstError(owner, ttl, attrs);
    }
  }

  /** The records are built exactly when every entry fits, and then one
      per attribute, in order. */
  lemma {:induction false} RecordsOkIff(owner: string, ttl: nat, attrs: seq<Attribute>)
    ensures var r := Records(owner, ttl, attrs);
      && (r.Ok? <==> forall i :: 0 <= i < |attrs| ==> FitsCharacterString(Entry(attrs[i])))
      && (r.Ok? ==> |r.value| == |attrs| && forall i :: 0 <= i < |attrs| ==> r.value[i] == TxtRecord(owner, ttl, attrs[i]))
  {
    if attrs != [] {
      var front := attrs[..|attrs| - 1];
      RecordsOkIff(owner, ttl, front);
      assert forall i :: 0 <= i < |front| ==> attrs[i] == front[i];
    }
  }

  /** A failed build names the first attribute that does not fit. */
  lemma {:induction false} RecordsFirstError(owner: string, ttl: nat, attrs: seq<Attribute>) returns (k: nat)
    requires Records(owner, ttl, attrs).Err?
    ensures k < |attrs| && !FitsCharacterString(Entry(attrs[k]))
    ensures Records(owner, ttl, attrs).error == InvalidAttribute(attrs[k].key)
    ensures forall i :: 0 <= i < k ==> FitsCharacterString(Entry(attrs[i]))
  {
    var front := attrs[..|attrs| - 1];
    if Records(owner, ttl, front).Err? {
      k := RecordsFirstError(owner, ttl, front);
      assert attrs[k] == front[k];
      assert forall i :: 0 <= i < k ==> attrs[i] == front[i];
    } else {
      RecordsOkIff(owner, ttl, front);
      k := |attrs| - 1;
      assert forall i :: 0 <= i < k ==> attrs[i] == front[i];
    }
  }

  /** A failure on a prefix of the attributes is the failure of all. */
  lemma {:induction false} RecordsFailureSticks(owner: string, ttl: nat, attrs: seq<Attribute>, i: nat)
    requires i <= |attrs| && Records(owner, ttl, attrs[..i]).Err?
    ensures Records(owner, ttl, attrs) == Records(owner, ttl, attrs[..i])
    decreases |attrs| - i
  {
    if i < |attrs| {
      assert attrs[..i + 1][..i] == attrs[..i];
      RecordsFailureSticks(owner, ttl, attrs, i + 1);
    } else {
      assert attrs[..i] == attrs;
    }
  }

  /** A TTL of 0 publishes nothing. Otherwise a successful build holds
      one record for the relay if there is one, one per direct address,
      and one for a non-empty ALPN, all owned by `_iroh._udp.<owner>.`,
      in class IN and with the snapshot's TTL. The publish interval is
      always the snapshot's. */
  lemma PublishFacts(owner: string, s: Snapshot)
    ensures var r := Publish(owner, s);
      && (r.Ok? ==> r.value.publishInterval == s.publishInterval)
      && (s.txtTtl == 0 ==> r == Ok(Publication([], s.publishInterval)))
      && (s.txtTtl > 0 && r.Ok? ==>
            && |r.value.records| == (if s.relayUrl.Some? then 1 else 0) + |s.directAddresses|
                                    + (if s.alpn.Some? && s.alpn.value != "" then 1 else 0)
            && forall i :: 0 <= i < |r.value.records| ==>
                 var rec := r.value.records[i];
                 rec.name == OwnerName(owner) && rec.recordClass == IN && rec.ttl == s.txtTtl
                 && rec.data.Txt? && |rec.data.strings| == 1)
      && (s.txtTtl > 0 ==>
            (r.Ok? <==> forall i :: 0 <= i < |Attributes(s)| ==> FitsCharacterString(Entry(Attributes(s)[i]))))
  {
    RecordsFacts(owner, s.txtTtl, Attributes(s));
  }

  /** Where each attribute sits in `Attributes(s)`. */
  lemma AttributesLayout(s: Snapshot)
    ensures var attrs := Attributes(s); var lead := |RelayAttributes(s)|;
      && |attrs| == lead + |s.directAddresses| + |AlpnAttributes(s)|
      && (s.relayUrl.Some? ==> attrs[0] == Attribute("relay", s.relayUrl.value))
      && (forall i :: 0 <= i < |s.directAddresses| ==> attrs[lead + i] == Attribute("addr", s.directAddresses[i]))
      && (s.alpn.Some? && s.alpn.value != "" ==> attrs[|attrs| - 1] == Attribute("alpn", s.alpn.value))
  {
  }

  /** One step of building: the record for `attrs[i]` extends the records
      of the prefix, or its failure is the failure of the whole. */
  lemma RecordsStep(owner: string, ttl: nat, attrs: seq<Attribute>, i: nat, records: seq<ResourceRecord>)
    requires i < |attrs| && Records(owner, ttl, attrs[..i]) == Ok(records)
    ensures FitsCharacterString(Entry(attrs[i])) ==>
      Records(owner, ttl, attrs[..i + 1]) == Ok(records + [TxtRecord(owner, ttl, attrs[i])])
    ensures !FitsCharacterString(Entry(attrs[i])) ==>
      Records(owner, ttl, attrs) == Err(InvalidAttribute(attrs[i].key))
  {
    assert attrs[..i + 1][..i] == attrs[..i];
    if !FitsCharacterString(Entry(attrs[i])) {
      RecordsFailureSticks(owner, ttl, attrs, i + 1);
    }
  }

  /** Building stops at the first attribute whose entry does not fit,
      and fails with that attribute's name. */
  lemma PublishFirstFailure(owner: string, s: Snapshot, j: nat)
    requires s.txtTtl > 0 && j < |Attributes(s)|
    requires forall k :: 0 <= k < j ==> FitsCharacterString(Entry(Attributes(s)[k]))
    requires !FitsCharacterString(Entry(Attributes(s)[j]))
    ensures Publish(owner, s) == Err(InvalidAttribute(Attributes(s)[j].key))
  {
    var attrs := Attributes(s);
    RecordsOkIff(owner, s.txtTtl, attrs);
    var k := RecordsFirstError(owner, s.txtTtl, attrs);
    assert k == j;
  }

  /** When every entry fits, the publication holds one record per
      attribute, in order. */
  lemma PublishAllFit(owner: string, s: Snapshot, records: seq<ResourceRecord>)
    requires s.txtTtl > 0 && |records| == |Attributes(s)|
    requires forall k :: 0 <= k < |records| ==>
      FitsCharacterString(Entry(Attributes(s)[k])) && records[k] == TxtRecord(owner, s.txtTtl, Attributes(s)[k])
    ensures Publish(owner, s) == Ok(Publication(records, s.publishInterval))
  {
    RecordsOkIff(owner, s.txtTtl, Attributes(s));
    assert Records(owner, s.txtTtl, Attributes(s)).value == records;
  }

  /** `build_publication`: the relay record, the address records in a
      loop, then the ALPN record, stopping at the first entry that does
      not fit. */
  method BuildPublication(owner: string, s: Snapshot) returns (r: Result<Publication, RecordError>)
    ensures r == Publish(owner, s)
  {
    if s.txtTtl == 0 {
      return Ok(Publication([], s.publishInterval));
    }
    ghost var attrs := Attributes(s);
    ghost var lead := |RelayAttributes(s)|;
    AttributesLayout(s);
    var records: seq<ResourceRecord> := [];
    if s.relayUrl.Some? {
      var relay := Attribute("relay", s.relayUrl.value);
      if !FitsCharacterString(Entry(relay)) {
        PublishFirstFailure(owner, s, 0);
        return Err(InvalidAttribute("relay"));
      }
      records := records + [TxtRecord(owner, s.txtTtl, relay)];
    }
    var i := 0;
    while i < |s.directAddresses|
      invariant 0 <= i <= |s.directAddresses|
      invariant |records| == lead + i
      invariant forall k :: 0 <= k < lead + i ==>
        FitsCharacterString(Entry(attrs[k])) && records[k] == TxtRecord(owner, s.txtTtl, attrs[k])
    {
      var address := Attribute("addr", s.directAddresses[i]);
      if !FitsCharacterString(Entry(address)) {
        PublishFirstFailure(owner, s, lead + i);
        return Err(InvalidAttribute("addr"));
      }
      records := records + [TxtRecord(owner, s.txtTtl, address)];
      i := i + 1;
    }
    if s.alpn.Some? && s.alpn.value != "" {
      var alpn := Attribute("alpn", s.alpn.value);
      if !FitsCharacterString(Entry(alpn)) {
        PublishFirstFailure(owner, s, lead + i);
        return Err(InvalidAttribute("alpn"));
      }
      records := records + [TxtRecord(owner, s.txtTtl, alpn)];
    }
    PublishAllFit(owner, s, records);
    r := Ok(Publication(records, s.publishInterval));
  }

  /** The snapshot of the unit test of `build_publication`: a relay, two
      direct addresses and an ALPN, with a TTL of 300 and a 60-second
      interval. `Url` serialises the relay with a trailing '/'. */
  function SampleSnapshot(): Snapshot
  {
    Snapshot(Some("https://relay.example/"), ["quic://10.1.1.4:4444", "quic://[2001:db8::1]:4444"],
             Some("pubky/iroh-homeserver/0"), 300, 60)
  }

  /** Every entry of an attribute list fits when none is longer than 63
      characters. */
  lemma ShortEntriesFit(attrs: seq<Attribute>)
    requires forall i :: 0 <= i < |attrs| ==> |Entry(attrs[i])| <= 63
    ensures forall i :: 0 <= i < |attrs| ==> FitsCharacterString(Entry(attrs[i]))
  {
    forall i | 0 <= i < |attrs|
      ensures FitsCharacterString(Entry(attrs[i]))
    {
      Utf8LengthBounds(Entry(attrs[i]));
    }
  }

  /** The sample publishes four records, one per attribute, so the unit
      test's expectation of three records does not hold. */
  lemma SamplePublishesFour(owner: string)
    ensures Publish(owner, SampleSnapshot()) == Ok(Publication([
      TxtRecord(owner, 300, Attribute("relay", "https://relay.example/")),
      TxtRecord(owner, 300, Attribute("addr", "quic://10.1.1.4:4444")),
      TxtRecord(owner, 300, Attribute("addr", "quic://[2001:db8::1]:4444")),
      TxtRecord(owner, 300, Attribute("alpn", "pubky/iroh-homeserver/0"))], 60))
    ensures |Publish(owner, SampleSnapshot()).value.records| != 3
  {
    var s := SampleSnapshot();
    var attrs := Attributes(s);
    assert attrs == [Attribute("relay", "https://relay.example/"), Attribute("addr", "quic://10.1.1.4:4444"),
                     Attribute("addr", "quic://[2001:db8::1]:4444"), Attribute("alpn", "pubky/iroh-homeserver/0")];
    ShortEntriesFit(attrs);
    RecordsFacts(owner, 300, attrs);
    var records := Records(owner, 300, attrs).value;
    assert records == [TxtRecord(owner, 300, attrs[0]), TxtRecord(owner, 300, attrs[1]),
                       TxtRecord(owner, 300, attrs[2]), TxtRecord(owner, 300, attrs[3])];
  }
}
