/** The embedded iroh gateway's discovery snapshot: what the bound
    endpoint reports, merged with the `[discovery.iroh]` settings. */
module IrohGateway {
  import opened Wrappers
  import opened Strings
  import opened IrohRecords

  /** A `NonZeroU64`. */
  type Positive = n: nat | n > 0 witness 1

  /** `IrohToml`, the `[discovery.iroh]` settings. URLs are given as their
      serialised text. */
  datatype IrohToml = IrohToml(
    enabled: bool,
    relayUrl: Option<string>,
    directAddresses: seq<string>,
    alpn: string,
    txtTtlSeconds: nat,
    publishIntervalMinutes: Positive)

  /** What the bound endpoint reports: its home relay, if any, and its
      direct socket addresses in their `Display` form. */
  datatype NodeAddr = NodeAddr(relayUrl: Option<string>, directAddresses: seq<string>)

  /** `discovery_interval_seconds`: the publish cadence in whole seconds,
      a non-zero multiple of a minute. */
  function DiscoveryIntervalSeconds(config: IrohToml): (r: nat)
    ensures r >= 60 && r % 60 == 0 && r / 60 == config.publishIntervalMinutes
  {
    config.publishIntervalMinutes * 60
  }

  /** Strictly increasing in the order of `String`: sorted, and no
      address twice. */
  predicate StrictlySorted(s: seq<string>)
  {
    forall i, j :: 0 <= i < j < |s| ==> LexLess(s[i], s[j])
  }

  /** `x` placed in a strictly increasing list, unless it is already there. */
  function Insert(x: string, s: seq<string>): seq<string>
  {
    if s == [] then [x]
    else if x == s[0] then s
    else if LexLess(x, s[0]) then [x] + s
    else [s[0]] + Insert(x, s[1..])
  }

  /** `sort` followed by `dedup`. */
  function SortDedup(xs: seq<string>): seq<string>
  {
    if xs == [] then [] else Insert(xs[0], SortDedup(xs[1..]))
  }

  lemma {:induction false} InsertFacts(x: string, s: seq<string>)
    requires StrictlySorted(s)
    ensures StrictlySorted(Insert(x, s))
    ensures forall a :: a in Insert(x, s) <==> a == x || a in s
  {
    if s == [] || x == s[0] {
    } else if LexLess(x, s[0]) {
      forall j | 0 < j < |s|
        ensures LexLess(x, s[j])
      {
        LexLessTransitive(x, s[0], s[j]);
      }
    } else {
      LexLessTotal(x, s[0]);
      InsertFacts(x, s[1..]);
      var t := Insert(x, s[1..]);
      assert forall a :: a in s <==> a == s[0] || a in s[1..] by {
        assert s == [s[0]] + s[1..];
      }
      forall j | 0 <= j < |t|
        ensures LexLess(s[0], t[j])
      {
        assert t[j] in t;
        if t[j] != x {
          var k :| 1 <= k < |s| && s[k] == t[j];
        }
      }
    }
  }

  /** The result of `sort` + `dedup` is strictly increasing and holds
      exactly the addresses of the input. */
  lemma {:induction false} SortDedupFacts(xs: seq<string>)
    ensures StrictlySorted(SortDedup(xs))
    ensures forall a :: a in SortDedup(xs) <==> a in xs
  {
    if xs != [] {
      SortDedupFacts(xs[1..]);
      InsertFacts(xs[0], SortDedup(xs[1..]));
      assert forall a :: a in xs <==> a == xs[0] || a in xs[1..] by {
        assert xs == [xs[0]] + xs[1..];
      }
    }
  }

  /** A strictly increasing list is fixed by its elements: `SortDedup` is
      the only sorted, duplicate-free arrangement of its input. */
  lemma {:induction false} StrictlySortedUnique(s: seq<string>, t: seq<string>)
    requires StrictlySorted(s) && StrictlySorted(t)
    requires forall a :: a in s <==> a in t
    ensures s == t
    decreases |s|
  {
    if s != [] {
      assert s[0] in s;
    }
    if t != [] {
      assert t[0] in t;
    }
    if s != [] && t != [] {
      var i :| 0 <= i < |t| && t[i] == s[0];
      var j :| 0 <= j < |s| && s[j] == t[0];
      LexLessTotal(s[0], t[0]);
      assert s[0] == t[0];
      forall a | a in s[1..]
        ensures a in t[1..]
      {
        var k :| 1 <= k < |s| && s[k] == a;
        LexLessTotal(s[0], a);
        assert a in s;
        var m :| 0 <= m < |t| && t[m] == a;
        assert t[1..][m - 1] == a;
      }
      forall a | a in t[1..]
        ensures a in s[1..]
      {
        var k :| 1 <= k < |t| && t[k] == a;
        LexLessTotal(t[0], a);
        assert a in t;
        var m :| 0 <= m < |s| && s[m] == a;
        assert s[1..][m - 1] == a;
      }
      StrictlySortedUnique(s[1..], t[1..]);
      assert s == [s[0]] + s[1..];
      assert t == [t[0]] + t[1..];
    }
  }

  /** The endpoint's addresses as `quic://` URLs. */
  function QuicUrls(addresses: seq<string>): (r: seq<string>)
    ensures |r| == |addresses| && forall i :: 0 <= i < |r| ==> r[i] == "quic://" + addresses[i]
  {
    seq(|addresses|, i requires 0 <= i < |addresses| => "quic://" + addresses[i])
  }

  /** The relay to publish: the endpoint's, else the configured one. */
  function PreferredRelay(node: NodeAddr, config: IrohToml): Option<string>
  {
    if node.relayUrl.Some? then node.relayUrl else config.relayUrl
  }

  /** `IrohGatewayHandle::discovery_snapshot`, after the endpoint has
      reported its address. There is nothing to publish exactly when no
      relay, no address and no ALPN is known; otherwise the snapshot
      carries the preferred relay, the endpoint's and the configured
      addresses sorted without duplicates, the configured ALPN and TTL,
      and the configured interval in seconds. */
  method DiscoverySnapshot(node: NodeAddr, config: IrohToml) returns (r: Option<Snapshot>)
    ensures r.None? <==>
      PreferredRelay(node, config).None? && node.directAddresses == [] && config.directAddresses == [] && config.alpn == ""
    ensures r.Some? ==>
      && r.value.relayUrl == PreferredRelay(node, config)
      && r.value.alpn == Some(config.alpn)
      && r.value.txtTtl == config.txtTtlSeconds
      && r.value.publishInterval == DiscoveryIntervalSeconds(config)
      && StrictlySorted(r.value.directAddresses)
      && forall a :: a in r.value.directAddresses <==> a in QuicUrls(node.directAddresses) || a in config.directAddresses
  {
    var directAddresses := QuicUrls(node.directAddresses);
    directAddresses := directAddresses + config.directAddresses;
    SortDedupFacts(directAddresses);
    directAddresses := SortDedup(directAddresses);
    var relayUrl := PreferredRelay(node, config);
    if relayUrl.None? && directAddresses == [] && config.alpn == "" {
      return None;
    }
    r := Some(Snapshot(relayUrl, directAddresses, Some(config.alpn), config.txtTtlSeconds, DiscoveryIntervalSeconds(config)));
  }
}
