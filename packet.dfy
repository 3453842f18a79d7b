/**
 * Packets as the proxy handles them: a fixed 512-byte receive buffer, the
 * number of bytes the datagram filled, and the peer's socket address. Only the
 * DNS transaction ID (the first two header bytes, section 4.1.1 of RFC 1035) is
 * ever read from a message.
 */
module Packet {
  import opened Base
  import opened Net

  /** The receive buffer size: the UDP message limit of section 2.3.4 of RFC 1035. */
  const BufferSize: nat := 512

  /** Rust's [u8; 512]; moved by value into the queues, so a value here. */
  type Buffer = s: seq<byte> | |s| == BufferSize witness seq(BufferSize, _ => 0)

  /** A byte count that recv_from can report for a 512-byte buffer. */
  type Length = n: nat | n <= BufferSize

  /** ProxiedPacket: (buffer, number of bytes received, peer address). */
  datatype ProxiedPacket = ProxiedPacket(buf: Buffer, len: Length, peer: SocketAddr)

  /** The bytes that were actually received, `buf[..len]`. */
  function Payload(p: ProxiedPacket): seq<byte>
  {
    p.buf[..p.len]
  }

  /**
   * recv_from into a fresh zeroed 512-byte buffer: a longer datagram is cut off
   * at 512 bytes, and the rest of the buffer keeps its zeros.
   */
  function RecvFrom(datagram: seq<byte>, src: SocketAddr): (p: ProxiedPacket)
    ensures p.len == Min(|datagram|, BufferSize)
    ensures p.buf[..p.len] == datagram[..p.len]
    ensures forall k :: p.len <= k < BufferSize ==> p.buf[k] == 0
    ensures p.peer == src
  {
    var n := Min(|datagram|, BufferSize);
    ProxiedPacket(datagram[..n] + seq(BufferSize - n, _ => 0), n, src)
  }

  /**
   * get_packet_id: the big-endian 16-bit number in bytes 0 and 1. The source
   * shifts the first byte left by 8 and ors in the second, which for two bytes
   * is base-256 addition (ShiftOrIsSum).
   */
  function GetPacketId(packet: seq<byte>): (id: u16)
    requires |packet| >= 2
    ensures id as int / 256 == packet[0] as int && id as int % 256 == packet[1] as int
  {
    (packet[0] as int * 256 + packet[1] as int) as u16
  }

  /** On 16-bit words holding a byte each, `(hi << 8) | lo` equals `hi * 256 + lo`. */
  lemma ShiftOrIsSum(hi: bv16, lo: bv16)
    requires hi < 0x100 && lo < 0x100
    ensures (hi << 8) | lo == hi * 256 + lo
  {
  }

  /** The two header bytes that carry a transaction ID, high byte first. */
  function EncodeId(id: u16): (b: seq<byte>)
    ensures |b| == 2
    ensures b[0] as int * 256 + b[1] as int == id as int
  {
    [(id as int / 256) as byte, (id as int % 256) as byte]
  }

  lemma IdRoundTrip(id: u16)
    ensures GetPacketId(EncodeId(id)) == id
  {
  }

  lemma HeaderRoundTrip(packet: seq<byte>)
    requires |packet| >= 2
    ensures EncodeId(GetPacketId(packet)) == packet[..2]
  {
  }

  /** The ID depends on the first two bytes and on nothing else. */
  lemma IdIsHeaderBytes(p: seq<byte>, q: seq<byte>)
    requires |p| >= 2 && |q| >= 2
    ensures GetPacketId(p) == GetPacketId(q) <==> p[..2] == q[..2]
  {
    HeaderRoundTrip(p);
    HeaderRoundTrip(q);
  }
}
