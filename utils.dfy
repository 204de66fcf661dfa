/** Address-family predicates (core/utils.go) over Go's net.IP byte slices. */
module IpUtils {
  import opened Ints
  import opened Wrappers

  const IPV4_LEN: nat := 4
  const IPV6_LEN: nat := 16

  /** The first twelve bytes of an IPv4-mapped IPv6 address
      (::ffff:0:0/96, section 2.5.5.2 of RFC 4291). */
  const V4_IN_V6_PREFIX: seq<uint8> := [0, 0, 0, 0, 0, 0, 0, 0, 0, 0, 0xff, 0xff]

  /** A 16-byte address that carries an IPv4 address in its last four bytes. */
  predicate IsV4Mapped(ip: seq<uint8>) {
    |ip| == IPV6_LEN && ip[..12] == V4_IN_V6_PREFIX
  }

  /** net.IP.To4: the 4-byte form of an address, or nil when it has none. */
  function To4(ip: seq<uint8>): (r: Option<seq<uint8>>)
    ensures r.Some? <==> |ip| == IPV4_LEN || IsV4Mapped(ip)
    ensures r.Some? ==> |r.value| == IPV4_LEN && r.value == ip[|ip| - 4..]
  {
    if |ip| == IPV4_LEN then Some(ip)
    else if |ip| == IPV6_LEN && (forall i :: 0 <= i < 10 ==> ip[i] == 0) && ip[10] == 0xff && ip[11] == 0xff
    then
      assert ip[..12] == V4_IN_V6_PREFIX;
      Some(ip[12..16])
    else None
  }

  /** isIPv4: the address has a 4-byte form. */
  predicate IsIPv4(ip: seq<uint8>): (b: bool)
    ensures b <==> |ip| == IPV4_LEN || IsV4Mapped(ip)
  {
    To4(ip).Some?
  }

  /** isIPv6: the address is 16 bytes long. */
  predicate IsIPv6(ip: seq<uint8>) {
    |ip| == IPV6_LEN
  }

  /** Which addresses the two predicates accept: every 4-byte address and every
      IPv4-mapped one count as IPv4, so a mapped address counts as both, and a
      16-byte address of any other form is IPv6 only. */
  lemma FamilyClassification(ip: seq<uint8>)
    ensures |ip| == IPV4_LEN ==> IsIPv4(ip) && !IsIPv6(ip)
    ensures IsV4Mapped(ip) ==> IsIPv4(ip) && IsIPv6(ip)
    ensures |ip| == IPV6_LEN && !IsV4Mapped(ip) ==> !IsIPv4(ip) && IsIPv6(ip)
    ensures |ip| != IPV4_LEN && |ip| != IPV6_LEN ==> !IsIPv4(ip) && !IsIPv6(ip)
  {
  }

  /** The three addresses of the utils tests: 8.8.8.8 as Go's 16-byte
      net.IPv4 form, ::ffff:192.168.0.1 and 2606:4700::6811:af55. */
  lemma TestAddresses()
    ensures IsIPv4([0, 0, 0, 0, 0, 0, 0, 0, 0, 0, 0xff, 0xff, 8, 8, 8, 8])
    ensures IsIPv4([0, 0, 0, 0, 0, 0, 0, 0, 0, 0, 0xff, 0xff, 192, 168, 0, 1])
    ensures !IsIPv4([0x26, 0x06, 0x47, 0x00, 0, 0, 0, 0, 0, 0, 0, 0, 0x68, 0x11, 0xaf, 0x55])
  {
    var google: seq<uint8> := [0, 0, 0, 0, 0, 0, 0, 0, 0, 0, 0xff, 0xff, 8, 8, 8, 8];
    var mapped: seq<uint8> := [0, 0, 0, 0, 0, 0, 0, 0, 0, 0, 0xff, 0xff, 192, 168, 0, 1];
    var v6: seq<uint8> := [0x26, 0x06, 0x47, 0x00, 0, 0, 0, 0, 0, 0, 0, 0, 0x68, 0x11, 0xaf, 0x55];
    assert google[..12] == V4_IN_V6_PREFIX;
    assert mapped[..12] == V4_IN_V6_PREFIX;
    assert v6[0] != V4_IN_V6_PREFIX[0];
  }
}
