/**
 * Zone routing: which configured zone, and so which upstream nameserver, serves
 * a client address. The zone table is the `geo_zones` vector of the
 * configuration, read-only once loaded.
 */
module Routing {
  import opened Base
  import opened Net

  /** A configured zone: a label, the prefix it covers and its nameserver. */
  datatype GeoZone = GeoZone(name: string, cidr: IpCidr, nameserver: IpAddr)

  /** No zone among the first n contains the address. */
  ghost predicate NoMatchAmong(zones: seq<GeoZone>, addr: IpAddr, n: nat)
    requires n <= |zones|
  {
    forall j :: 0 <= j < n ==> !Contains(zones[j].cidr, addr)
  }

  /**
   * Among the first n zones, zone i is the one that filtering by containment and
   * then taking the first minimum by size yields: it contains the address, no
   * containing zone is smaller, and every containing zone before it is strictly larger.
   */
  ghost predicate FirstSmallestMatch(zones: seq<GeoZone>, addr: IpAddr, n: nat, i: nat)
    requires n <= |zones|
  {
    && i < n
    && Contains(zones[i].cidr, addr)
    && (forall j :: 0 <= j < n && Contains(zones[j].cidr, addr) ==> Size(zones[i].cidr) <= Size(zones[j].cidr))
    && (forall j :: 0 <= j < i && Contains(zones[j].cidr, addr) ==> Size(zones[i].cidr) < Size(zones[j].cidr))
  }

  /**
   * The same choice stated with prefix lengths: zone i contains the address, no
   * containing zone has a longer prefix, and every containing zone before it has
   * a strictly shorter one.
   */
  ghost predicate FirstLongestMatch(zones: seq<GeoZone>, addr: IpAddr, i: nat)
  {
    && i < |zones|
    && Contains(zones[i].cidr, addr)
    && (forall j :: 0 <= j < |zones| && Contains(zones[j].cidr, addr) ==> zones[j].cidr.len <= zones[i].cidr.len)
    && (forall j :: 0 <= j < i && Contains(zones[j].cidr, addr) ==> zones[j].cidr.len < zones[i].cidr.len)
  }

  /**
   * The `filter(contains).min_by_key(size)` chain as the fold it performs: zones
   * i.. are visited in order, `best` is the first minimum found so far, and a
   * later containing zone replaces it only when strictly smaller.
   */
  function MinBySizeFrom(zones: seq<GeoZone>, addr: IpAddr, i: nat, best: Option<nat>): (r: Option<nat>)
    requires i <= |zones|
    requires best.None? ==> NoMatchAmong(zones, addr, i)
    requires best.Some? ==> FirstSmallestMatch(zones, addr, i, best.value)
    ensures r.None? ==> NoMatchAmong(zones, addr, |zones|)
    ensures r.Some? ==> FirstSmallestMatch(zones, addr, |zones|, r.value)
    decreases |zones| - i
  {
    if i == |zones| then best
    else if !Contains(zones[i].cidr, addr) then MinBySizeFrom(zones, addr, i + 1, best)
    else match best
      case None => MinBySizeFrom(zones, addr, i + 1, Some(i))
      case Some(b) =>
        if Size(zones[i].cidr) < Size(zones[b].cidr) then MinBySizeFrom(zones, addr, i + 1, Some(i))
        else MinBySizeFrom(zones, addr, i + 1, best)
  }

  /** Index of the zone that routes the address, if any. */
  function SelectZone(zones: seq<GeoZone>, addr: IpAddr): (r: Option<nat>)
    ensures r.None? <==> NoMatchAmong(zones, addr, |zones|)
    ensures r.Some? ==> FirstSmallestMatch(zones, addr, |zones|, r.value)
  {
    MinBySizeFrom(zones, addr, 0, None)
  }

  /** get_ns_addr: the nameserver of the most specific zone containing the address. */
  function GetNsAddr(zones: seq<GeoZone>, addr: IpAddr): (r: Option<IpAddr>)
    ensures r.None? <==> NoMatchAmong(zones, addr, |zones|)
    ensures r.Some? ==> exists i: nat :: FirstSmallestMatch(zones, addr, |zones|, i) && zones[i].nameserver == r.value
  {
    match SelectZone(zones, addr)
    case None => None
    case Some(i) => Some(zones[i].nameserver)
  }

  /** The selection rule picks at most one zone. */
  lemma FirstSmallestMatchIsUnique(zones: seq<GeoZone>, addr: IpAddr, i: nat, k: nat)
    requires FirstSmallestMatch(zones, addr, |zones|, i)
    requires FirstSmallestMatch(zones, addr, |zones|, k)
    ensures i == k
  {
  }

  /** Conversely, whichever zone the rule picks is the one whose nameserver is returned. */
  lemma GetNsAddrFollowsRule(zones: seq<GeoZone>, addr: IpAddr, i: nat)
    requires FirstSmallestMatch(zones, addr, |zones|, i)
    ensures GetNsAddr(zones, addr) == Some(zones[i].nameserver)
  {
    var k := SelectZone(zones, addr).value;
    FirstSmallestMatchIsUnique(zones, addr, i, k);
  }

  /** Smallest size is longest prefix: the size rule and the length rule choose the same zone. */
  lemma {:induction false} SmallestIsLongest(zones: seq<GeoZone>, addr: IpAddr, i: nat)
    requires i < |zones|
    ensures FirstSmallestMatch(zones, addr, |zones|, i) <==> FirstLongestMatch(zones, addr, i)
  {
    if Contains(zones[i].cidr, addr) {
      forall j | 0 <= j < |zones| && Contains(zones[j].cidr, addr)
        ensures Size(zones[i].cidr) <= Size(zones[j].cidr) <==> zones[j].cidr.len <= zones[i].cidr.len
        ensures Size(zones[i].cidr) < Size(zones[j].cidr) <==> zones[j].cidr.len < zones[i].cidr.len
      {
        SizeOrderIsLengthOrder(zones[i].cidr, zones[j].cidr);
      }
    }
  }

  /** get_ns_addr answers with the first zone of longest prefix, and with nothing only when no zone contains the address. */
  lemma {:induction false} GetNsAddrIsLongestPrefixMatch(zones: seq<GeoZone>, addr: IpAddr)
    ensures GetNsAddr(zones, addr).None? <==> (forall j :: 0 <= j < |zones| ==> !Contains(zones[j].cidr, addr))
    ensures GetNsAddr(zones, addr).Some? ==>
      exists i: nat :: FirstLongestMatch(zones, addr, i) && zones[i].nameserver == GetNsAddr(zones, addr).value
  {
    var r := SelectZone(zones, addr);
    if r.Some? {
      var i := r.value;
      SmallestIsLongest(zones, addr, i);
      assert FirstLongestMatch(zones, addr, i) && zones[i].nameserver == GetNsAddr(zones, addr).value;
    }
  }

  /**
   * load_cfg's order: every zone read from the configuration is inserted at the
   * front of the vector, so the table holds the configuration reversed.
   */
  method LoadZones(entries: seq<GeoZone>) returns (zones: seq<GeoZone>)
    ensures zones == Reversed(entries)
  {
    zones := [];
    var i := 0;
    while i < |entries|
      invariant 0 <= i <= |entries|
      invariant zones == Reversed(entries[..i])
    {
      assert entries[..i + 1][..i] == entries[..i];
      zones := [entries[i]] + zones;
      i := i + 1;
    }
    assert entries[..i] == entries;
  }

  /**
   * Ties between equally specific zones go to the one written LAST in the
   * configuration: for a table loaded from `entries`, the chosen zone is a
   * smallest containing entry and every later containing entry is strictly larger.
   */
  lemma {:induction false} TieGoesToLastConfigured(entries: seq<GeoZone>, addr: IpAddr, i: nat)
    requires FirstSmallestMatch(Reversed(entries), addr, |entries|, i)
    ensures Reversed(entries)[i] == entries[|entries| - 1 - i]
    ensures forall j :: 0 <= j < |entries| && Contains(entries[j].cidr, addr) ==>
      Size(entries[|entries| - 1 - i].cidr) <= Size(entries[j].cidr)
    ensures forall j :: |entries| - 1 - i < j < |entries| && Contains(entries[j].cidr, addr) ==>
      Size(entries[|entries| - 1 - i].cidr) < Size(entries[j].cidr)
  {
    var zones, n := Reversed(entries), |entries|;
    ReversedAt(entries, i);
    forall j | 0 <= j < n && Contains(entries[j].cidr, addr)
      ensures Size(entries[n - 1 - i].cidr) <= Size(entries[j].cidr)
      ensures n - 1 - i < j ==> Size(entries[n - 1 - i].cidr) < Size(entries[j].cidr)
    {
      ReversedAt(entries, n - 1 - j);
      assert zones[n - 1 - j] == entries[j];
    }
  }

  /** Zones 10.0.0.0/8 -> A and 10.1.0.0/16 -> B, in either order. */
  function TenNetZones(nsA: IpAddr, nsB: IpAddr, wideFirst: bool): seq<GeoZone>
  {
    var wide := GeoZone("A", Prefix(Ipv4(10, 0, 0, 0), 8), nsA);
    var narrow := GeoZone("B", Prefix(Ipv4(10, 1, 0, 0), 16), nsB);
    if wideFirst then [wide, narrow] else [narrow, wide]
  }

  /** 10.1.2.3 is routed to the /16 whatever the order of the two zones. */
  lemma MostSpecificZoneWins(nsA: IpAddr, nsB: IpAddr, wideFirst: bool)
    ensures GetNsAddr(TenNetZones(nsA, nsB, wideFirst), Ipv4(10, 1, 2, 3)) == Some(nsB)
  {
    var zones, addr := TenNetZones(nsA, nsB, wideFirst), Ipv4(10, 1, 2, 3);
    var n := if wideFirst then 1 else 0;
    TenNetExamples();
    assert FirstLongestMatch(zones, addr, n);
    SmallestIsLongest(zones, addr, n);
    GetNsAddrFollowsRule(zones, addr, n);
  }

  /** 10.2.0.1 lies only in the /8 and is routed there. */
  lemma WiderZoneServesTheRest(nsA: IpAddr, nsB: IpAddr, wideFirst: bool)
    ensures GetNsAddr(TenNetZones(nsA, nsB, wideFirst), Ipv4(10, 2, 0, 1)) == Some(nsA)
  {
    var zones, addr := TenNetZones(nsA, nsB, wideFirst), Ipv4(10, 2, 0, 1);
    var w := if wideFirst then 0 else 1;
    TenNetExamples();
    assert FirstLongestMatch(zones, addr, w);
    SmallestIsLongest(zones, addr, w);
    GetNsAddrFollowsRule(zones, addr, w);
  }

  /** 192.168.0.1 lies in neither zone and has no route. */
  lemma OutsideAddressHasNoRoute(nsA: IpAddr, nsB: IpAddr, wideFirst: bool)
    ensures GetNsAddr(TenNetZones(nsA, nsB, wideFirst), Ipv4(192, 168, 0, 1)) == None
  {
    var zones, addr := TenNetZones(nsA, nsB, wideFirst), Ipv4(192, 168, 0, 1);
    TenNetExamples();
    assert !Contains(zones[0].cidr, addr) && !Contains(zones[1].cidr, addr);
  }
}
