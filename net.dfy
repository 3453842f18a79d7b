/**
 * IP addresses, socket addresses and CIDR prefixes.
 *
 * A prefix is an address family, a base address and a prefix length, as in
 * section 3.1 of RFC 4632 (IPv4) and section 2.3 of RFC 4291 (IPv6). An address
 * lies in the prefix when it has the prefix's family and agrees with the base on
 * the first `len` bits, i.e. both have the same quotient by 2^(W - len), where W
 * is the address width. The prefix spans 2^(W - len) addresses.
 */
module Net {
  import opened Base

  datatype Family = V4 | V6

  /** Number of bits in an address of the family. */
  function Width(f: Family): nat {
    match f
    case V4 => 32
    case V6 => 128
  }

  const V4Space: nat := 0x1_0000_0000
  const V6Space: nat := 0x1_0000_0000_0000_0000_0000_0000_0000_0000

  /** Number of addresses of the family, written out so that it needs no unfolding. */
  function Space(f: Family): nat {
    match f
    case V4 => V4Space
    case V6 => V6Space
  }

  lemma SpaceIsPow2Width(f: Family)
    ensures Space(f) == Pow2(Width(f))
  {
    Pow2Wide();
  }

  lemma Pow2Wide()
    ensures Pow2(32) == V4Space && Pow2(128) == V6Space
  {
    Pow2Octets();
    Pow2Split(16, 16);
    assert Pow2(32) == 0x1_0000_0000;
    Pow2Split(32, 32);
    assert Pow2(64) == 0x1_0000_0000_0000_0000;
    Pow2Split(64, 64);
  }

  lemma {:induction false} Pow2Split(a: nat, b: nat)
    ensures Pow2(a + b) == Pow2(a) * Pow2(b)
  {
    if b > 0 {
      Pow2Split(a, b - 1);
    }
  }

  /** Rust's std::net::IpAddr: the address as an unsigned number of Width(family) bits. */
  datatype IpAddress = IpAddress(family: Family, value: nat)

  type IpAddr = a: IpAddress | a.value < Space(a.family) witness IpAddress(V4, 0)

  /** The IPv4 address a.b.c.d. */
  function Ipv4(a: byte, b: byte, c: byte, d: byte): (r: IpAddr)
    ensures r.family == V4
    ensures r.value == a as int * 0x100_0000 + b as int * 0x1_0000 + c as int * 0x100 + d as int
  {
    IpAddress(V4, a as int * 0x100_0000 + b as int * 0x1_0000 + c as int * 0x100 + d as int)
  }

  /** Rust's std::net::SocketAddr: an IP address and a 16-bit port. */
  datatype SocketAddr = SocketAddr(ip: IpAddr, port: u16)

  /** A CIDR prefix, as cidr_utils::cidr::IpCidr describes it. */
  datatype Prefix = Prefix(base: IpAddr, len: nat)

  type IpCidr = c: Prefix | c.len <= Width(c.base.family) witness Prefix(IpAddress(V4, 0), 0)

  /** Number of trailing (host) bits of the prefix. */
  function HostBits(c: IpCidr): nat {
    Width(c.base.family) - c.len
  }

  /** IpCidr::contains: same family, and the same first `len` bits as the base. */
  predicate Contains(c: IpCidr, a: IpAddr) {
    && a.family == c.base.family
    && a.value / Pow2(HostBits(c)) == c.base.value / Pow2(HostBits(c))
  }

  /** IpCidr::size: the number of addresses the prefix spans. */
  function Size(c: IpCidr): nat {
    Pow2(HostBits(c))
  }

  /** A prefix of full length holds exactly its base address. */
  lemma FullPrefixHoldsOnlyBase(c: IpCidr, a: IpAddr)
    requires c.len == Width(c.base.family)
    ensures Contains(c, a) <==> a == c.base
  {
  }

  /** A zero-length prefix holds every address of its family and nothing else. */
  lemma EmptyPrefixHoldsFamily(c: IpCidr, a: IpAddr)
    requires c.len == 0
    ensures Contains(c, a) <==> a.family == c.base.family
  {
    SpaceIsPow2Width(c.base.family);
    if a.family == c.base.family {
      assert a.value / Pow2(HostBits(c)) == 0;
      assert c.base.value / Pow2(HostBits(c)) == 0;
    }
  }

  /** A prefix spans between one address and the whole family. */
  lemma SizeBounds(c: IpCidr)
    ensures 1 <= Size(c) <= Space(c.base.family)
  {
    SpaceIsPow2Width(c.base.family);
    if c.len > 0 {
      Pow2StrictlyIncreasing(HostBits(c), Width(c.base.family));
    }
  }

  /** Within one family, the smaller prefix is the longer one. */
  lemma SizeOrderIsLengthOrder(c: IpCidr, d: IpCidr)
    requires c.base.family == d.base.family
    ensures Size(c) < Size(d) <==> c.len > d.len
    ensures Size(c) == Size(d) <==> c.len == d.len
  {
    Pow2Ordered(HostBits(c), HostBits(d));
  }

  lemma Pow2Octets()
    ensures Pow2(8) == 0x100 && Pow2(16) == 0x1_0000 && Pow2(24) == 0x100_0000
  {
    Pow2Split(8, 8);
    Pow2Split(8, 16);
  }

  /** 10.1.2.3 lies in 10.0.0.0/8 and in 10.1.0.0/16; 10.2.0.1 lies only in the first; 192.168.0.1 in neither. */
  lemma TenNetExamples()
    ensures Contains(Prefix(Ipv4(10, 0, 0, 0), 8), Ipv4(10, 1, 2, 3))
    ensures Contains(Prefix(Ipv4(10, 1, 0, 0), 16), Ipv4(10, 1, 2, 3))
    ensures Contains(Prefix(Ipv4(10, 0, 0, 0), 8), Ipv4(10, 2, 0, 1))
    ensures !Contains(Prefix(Ipv4(10, 1, 0, 0), 16), Ipv4(10, 2, 0, 1))
    ensures !Contains(Prefix(Ipv4(10, 0, 0, 0), 8), Ipv4(192, 168, 0, 1))
    ensures !Contains(Prefix(Ipv4(10, 1, 0, 0), 16), Ipv4(192, 168, 0, 1))
  {
    Pow2Octets();
    assert Ipv4(10, 0, 0, 0).value == 0x0A00_0000;
    assert Ipv4(10, 1, 0, 0).value == 0x0A01_0000;
    assert Ipv4(10, 1, 2, 3).value == 0x0A01_0203;
    assert Ipv4(10, 2, 0, 1).value == 0x0A02_0001;
    assert Ipv4(192, 168, 0, 1).value == 0xC0A8_0001;
  }
}
