/** The Swiss Knife's DNS resolver for pkarr hosts: addresses published
    without a port get 443, and IPv4 addresses are tried before IPv6 ones.
    The pkarr endpoint lookup and the system resolver are inputs. */
module SwissTransport {
  import opened Wrappers

  /** An IP address; the address bits themselves play no part here. */
  datatype IpAddr = V4(v4bits: nat) | V6(v6bits: nat)

  datatype SocketAddr = SocketAddr(ip: IpAddr, port: nat)

  /** The port an address without one is given. */
  const HttpsPort: nat := 443

  /** One address after `normalize_port`. */
  function WithDefaultPort(addr: SocketAddr): SocketAddr
  {
    if addr.port == 0 then SocketAddr(addr.ip, HttpsPort) else addr
  }

  /** The list after `normalize_port`. */
  function NormalizedPorts(addrs: seq<SocketAddr>): seq<SocketAddr>
  {
    seq(|addrs|, i requires 0 <= i < |addrs| => WithDefaultPort(addrs[i]))
  }

  /** No address is left on port 0; every address keeps its IP, and those
      that had a port keep it. */
  lemma NormalizedPortsFacts(addrs: seq<SocketAddr>)
    ensures |NormalizedPorts(addrs)| == |addrs|
    ensures forall i :: 0 <= i < |addrs| ==>
      var r := NormalizedPorts(addrs)[i];
      r.port != 0 && r.ip == addrs[i].ip && (addrs[i].port != 0 ==> r == addrs[i])
      && (addrs[i].port == 0 ==> r.port == HttpsPort)
  {
  }

  /** `normalize_port`: rewrite port 0 to 443, in place. */
  method NormalizePort(addrs: array<SocketAddr>)
    modifies addrs
    ensures addrs[..] == NormalizedPorts(old(addrs[..]))
  {
    var i := 0;
    while i < addrs.Length
      invariant 0 <= i <= addrs.Length
      invariant addrs[..i] == NormalizedPorts(old(addrs[..]))[..i]
      invariant addrs[i..] == old(addrs[..])[i..]
    {
      if addrs[i].port == 0 {
        addrs[i] := SocketAddr(addrs[i].ip, HttpsPort);
      }
      assert addrs[..i + 1] == addrs[..i] + [addrs[i]];
      assert addrs[i + 1..] == old(addrs[..])[i + 1..] by {
        assert old(addrs[..])[i + 1..] == old(addrs[..])[i..][1..];
      }
      i := i + 1;
    }
  }

  /** Whether an address belongs to the IPv4 (`v4`) or the IPv6 family. */
  predicate InFamily(addr: SocketAddr, v4: bool)
  {
    addr.ip.V4? == v4
  }

  /** The addresses of one family, in their order. */
  function OfFamily(addrs: seq<SocketAddr>, v4: bool): seq<SocketAddr>
  {
    if addrs == [] then []
    else (if InFamily(addrs[0], v4) then [addrs[0]] else []) + OfFamily(addrs[1..], v4)
  }

  /** The list after the stable sort on the key "IPv4 first". */
  function Ipv4First(addrs: seq<SocketAddr>): seq<SocketAddr>
  {
    OfFamily(addrs, true) + OfFamily(addrs, false)
  }

  lemma {:induction false} OfFamilyAppend(xs: seq<SocketAddr>, ys: seq<SocketAddr>, v4: bool)
    ensures OfFamily(xs + ys, v4) == OfFamily(xs, v4) + OfFamily(ys, v4)
    decreases |xs|
  {
    if xs != [] {
      var head := if InFamily(xs[0], v4) then [xs[0]] else [];
      assert (xs + ys)[0] == xs[0];
      assert (xs + ys)[1..] == xs[1..] + ys;
      assert OfFamily(xs + ys, v4) == head + OfFamily(xs[1..] + ys, v4);
      OfFamilyAppend(xs[1..], ys, v4);
    } else {
      assert xs + ys == ys;
    }
  }

  lemma {:induction false} OfFamilyShape(xs: seq<SocketAddr>, v4: bool)
    ensures forall a :: a in OfFamily(xs, v4) ==> InFamily(a, v4) && a in xs
    ensures OfFamily(OfFamily(xs, v4), v4) == OfFamily(xs, v4)
    ensures OfFamily(OfFamily(xs, v4), !v4) == []
    decreases |xs|
  {
    if xs != [] {
      OfFamilyShape(xs[1..], v4);
      var head := if InFamily(xs[0], v4) then [xs[0]] else [];
      var rest := OfFamily(xs[1..], v4);
      OfFamilyAppend(head, rest, v4);
      OfFamilyAppend(head, rest, !v4);
      if head != [] {
        assert head[1..] == [];
      }
    }
  }

  lemma {:induction false} FamiliesSplit(xs: seq<SocketAddr>)
    ensures multiset(OfFamily(xs, true)) + multiset(OfFamily(xs, false)) == multiset(xs)
    ensures |OfFamily(xs, true)| + |OfFamily(xs, false)| == |xs|
    decreases |xs|
  {
    if xs != [] {
      FamiliesSplit(xs[1..]);
      assert xs == [xs[0]] + xs[1..];
    }
  }

  /** The sorted list is a permutation of the input in which no IPv6
      address precedes an IPv4 address, and each family keeps its original
      order (the sort is stable). */
  lemma Ipv4FirstProperties(addrs: seq<SocketAddr>)
    ensures multiset(Ipv4First(addrs)) == multiset(addrs)
    ensures forall i, j :: 0 <= i < j < |Ipv4First(addrs)| ==>
      Ipv4First(addrs)[i].ip.V4? || Ipv4First(addrs)[j].ip.V6?
    ensures OfFamily(Ipv4First(addrs), true) == OfFamily(addrs, true)
    ensures OfFamily(Ipv4First(addrs), false) == OfFamily(addrs, false)
  {
    var v4 := OfFamily(addrs, true);
    var v6 := OfFamily(addrs, false);
    var r := Ipv4First(addrs);
    OfFamilyShape(addrs, true);
    OfFamilyShape(addrs, false);
    FamiliesSplit(addrs);
    OfFamilyAppend(v4, v6, true);
    OfFamilyAppend(v4, v6, false);
    forall i, j | 0 <= i < j < |r|
      ensures r[i].ip.V4? || r[j].ip.V6?
    {
      if i < |v4| {
        assert r[i] in v4;
      } else {
        assert r[j] in v6;
      }
    }
  }

  /** The resolver's sort, in place: IPv4 addresses first, each family in
      its original order. */
  method SortIpv4First(addrs: array<SocketAddr>)
    modifies addrs
    ensures addrs[..] == Ipv4First(old(addrs[..]))
  {
    var v4, v6 := SplitFamilies(addrs);
    FamiliesSplit(addrs[..]);
    WriteAll(addrs, v4 + v6);
  }

  /** One pass over the array collecting each family in order. */
  method SplitFamilies(addrs: array<SocketAddr>) returns (v4: seq<SocketAddr>, v6: seq<SocketAddr>)
    ensures v4 == OfFamily(addrs[..], true) && v6 == OfFamily(addrs[..], false)
  {
    v4, v6 := [], [];
    var i := 0;
    while i < addrs.Length
      invariant 0 <= i <= addrs.Length
      invariant v4 == OfFamily(addrs[..i], true) && v6 == OfFamily(addrs[..i], false)
    {
      OfFamilyAppend(addrs[..i], [addrs[i]], true);
      OfFamilyAppend(addrs[..i], [addrs[i]], false);
      assert addrs[..i + 1] == addrs[..i] + [addrs[i]];
      if addrs[i].ip.V4? {
        v4 := v4 + [addrs[i]];
      } else {
        v6 := v6 + [addrs[i]];
      }
      i := i + 1;
    }
    assert addrs[..] == addrs[..addrs.Length];
  }

  /** Writes `s` over the array, element by element. */
  method WriteAll(a: array<SocketAddr>, s: seq<SocketAddr>)
    requires |s| == a.Length
    modifies a
    ensures a[..] == s
  {
    var j := 0;
    while j < a.Length
      invariant 0 <= j <= a.Length
      invariant a[..j] == s[..j]
    {
      a[j] := s[j];
      assert a[..j + 1] == a[..j] + [a[j]];
      assert s[..j + 1] == s[..j] + [s[j]];
      j := j + 1;
    }
    assert a[..] == a[..a.Length];
  }

  /** What the resolver hands back for a host name. */
  datatype Resolution =
    | Addresses(addrs: seq<SocketAddr>)
      /** A host that is not a pkarr key goes to the system resolver as
          "host:0". */
    | LookupHost(query: string)
    | PkarrResolutionFailed

  function ResolutionError(): string
  {
    "pkarr endpoint resolution failed"
  }

  /** `Ipv4PreferredResolver::resolve`: `isPublicKey` says whether the host
      parses as a pkarr public key, `endpoint` is the pkarr HTTPS endpoint
      lookup (`None` when it failed). Port defaulting and the IPv4-first
      order apply to pkarr hosts only. */
  method Resolve(host: string, isPublicKey: bool, endpoint: Option<seq<SocketAddr>>)
    returns (r: Resolution)
    ensures !isPublicKey ==> r == LookupHost(host + ":0")
    ensures isPublicKey && endpoint.None? ==> r == PkarrResolutionFailed
    ensures isPublicKey && endpoint.Some? ==>
      r == Addresses(Ipv4First(NormalizedPorts(endpoint.value)))
  {
    if isPublicKey {
      if endpoint.None? {
        return PkarrResolutionFailed;
      }
      var found := endpoint.value;
      var addrs := new SocketAddr[|found|](i requires 0 <= i < |found| => found[i]);
      assert addrs[..] == found;
      NormalizePort(addrs);
      SortIpv4First(addrs);
      r := Addresses(addrs[..]);
    } else {
      r := LookupHost(host + ":0");
    }
  }

  /** A resolved pkarr host never yields port 0, and every IPv4 address
      comes before every IPv6 one. */
  lemma ResolvedAddressesUsable(endpoint: seq<SocketAddr>)
    ensures var r := Ipv4First(NormalizedPorts(endpoint));
      |r| == |endpoint|
      && (forall a :: a in r ==> a.port != 0)
      && (forall i, j :: 0 <= i < j < |r| ==> r[i].ip.V4? || r[j].ip.V6?)
  {
    var n := NormalizedPorts(endpoint);
    NormalizedPortsFacts(endpoint);
    Ipv4FirstProperties(n);
    var r := Ipv4First(n);
    assert |multiset(r)| == |multiset(n)|;
    forall a | a in r
      ensures a.port != 0
    {
      assert a in multiset(r);
      assert a in multiset(n);
    }
  }
}
