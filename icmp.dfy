/** The ICMP echo exchange (core/icmp.go): message constants, the echo request
    a session sends, and the classification of a received message as a reply
    to it. Messages are abstract values; marshalling, checksums and parsing
    belong to golang.org/x/net/icmp and are not modelled. The session-state
    parts of requestEcho and checkRawPacket are methods of Sessions.Session. */
module Icmp {
  import opened Ints
  import opened Wrappers
  import opened ByteOrder

  const ECHO_CODE: int := 0
  /** IANA protocol number of ICMP. */
  const ICMP_PROTOCOL: int := 1
  /** IANA protocol number of ICMPv6. */
  const ICMPV6_PROTOCOL: int := 58
  /** Payload length: 8 bytes of session bigID, 8 bytes of send time. */
  const DATA_LENGTH: nat := 16
  const ICMP_PRIVILEGED_NETWORK: string := "ip4:icmp"
  const ICMPV6_PRIVILEGED_NETWORK: string := "ip6:ipv6-icmp"
  const ICMP_UNPRIVILEGED_NETWORK: string := "udp4"
  const ICMPV6_UNPRIVILEGED_NETWORK: string := "udp6"

  /** A message type, tagged by family as ipv4.ICMPType and ipv6.ICMPType are:
      an IPv4 type never equals an IPv6 type of the same number. */
  datatype IcmpType = V4(n: uint8) | V6(n: uint8)

  /** RFC 792 Echo and Echo Reply. */
  const V4_ECHO_REPLY: IcmpType := V4(0)
  const V4_ECHO: IcmpType := V4(8)
  /** Section 4.1 and 4.2 of RFC 4443: Echo Request and Echo Reply. */
  const V6_ECHO_REQUEST: IcmpType := V6(128)
  const V6_ECHO_REPLY: IcmpType := V6(129)

  /** The message body: an echo (request or reply) with its identifier,
      sequence number and data, or a body of any other kind. */
  datatype Body =
    | Echo(id: int, sequence: int, data: seq<uint8>)
    | OtherBody(data: seq<uint8>)

  datatype Message = Message(typ: IcmpType, code: int, body: Body)

  /** A packet read from the connection: its content already parsed with the
      session's protocol (None when parsing failed), the number of bytes read,
      the TTL or hop limit from the control message, and the sender. */
  datatype RawPacket = RawPacket(
    content: Option<Message>,
    length: int,
    ttl: int,
    src: Option<seq<uint8>>)

  predicate IsEchoRequestType(t: IcmpType) {
    t == V4_ECHO || t == V6_ECHO_REQUEST
  }

  predicate IsEchoReplyType(t: IcmpType) {
    t == V4_ECHO_REPLY || t == V6_ECHO_REPLY
  }

  /** GetICMPType: the echo request type of the session's address family. */
  function GetICMPType(isIPv4: bool): (t: IcmpType)
    ensures IsEchoRequestType(t)
    ensures t.V4? <==> isIPv4
  {
    if isIPv4 then V4_ECHO else V6_ECHO_REQUEST
  }

  /** GetProtocol: the protocol number messages are parsed with. */
  function GetProtocol(isIPv4: bool): (p: int)
    ensures p == ICMP_PROTOCOL || p == ICMPV6_PROTOCOL
    ensures p == ICMP_PROTOCOL <==> isIPv4
  {
    if isIPv4 then ICMP_PROTOCOL else ICMPV6_PROTOCOL
  }

  /** GetNetwork: raw ICMP sockets ("ip…") when privileged, datagram sockets
      ("udp…") otherwise, in the session's address family. */
  function GetNetwork(isIPv4: bool, isPrivileged: bool): (n: string)
    ensures n in {ICMP_PRIVILEGED_NETWORK, ICMPV6_PRIVILEGED_NETWORK, ICMP_UNPRIVILEGED_NETWORK, ICMPV6_UNPRIVILEGED_NETWORK}
    ensures |n| >= 4 && (isPrivileged <==> n[0] == 'i')
    ensures isIPv4 <==> n == ICMP_PRIVILEGED_NETWORK || n == ICMP_UNPRIVILEGED_NETWORK
  {
    if isIPv4 && isPrivileged then ICMP_PRIVILEGED_NETWORK
    else if isIPv4 && !isPrivileged then ICMP_UNPRIVILEGED_NETWORK
    else if !isIPv4 && isPrivileged then ICMPV6_PRIVILEGED_NETWORK
    else ICMPV6_UNPRIVILEGED_NETWORK
  }

  /** The four family/privilege combinations use four different networks. */
  lemma NetworksDistinct(v4: bool, priv: bool, v4': bool, priv': bool)
    requires GetNetwork(v4, priv) == GetNetwork(v4', priv')
    ensures v4 == v4' && priv == priv'
  {
  }

  /** The echo payload: the session bigID, then the send time, each as eight
      big-endian bytes; both read back exactly. */
  function EchoPayload(bigID: uint64, now: int64): (data: seq<uint8>)
    ensures |data| == DATA_LENGTH
    ensures BytesToUint64(data[..8]) == bigID
    ensures BytesToUnixNano(data[8..]) == now
  {
    var data := Uint64ToBytes(bigID) + UnixNanoToBytes(now);
    assert data[..8] == Uint64ToBytes(bigID);
    assert data[8..] == UnixNanoToBytes(now);
    Uint64RoundTrip(bigID);
    UnixNanoRoundTrip(now);
    data
  }

  /** The echo request requestEcho sends: the family's request type, code 0,
      the session id, the sequence number after lastSequence, and the 16-byte
      payload. */
  function BuildEchoRequest(isIPv4: bool, id: int, lastSequence: int, bigID: uint64, now: int64): (m: Message)
    ensures IsEchoRequestType(m.typ) && (m.typ.V4? <==> isIPv4)
    ensures m.code == ECHO_CODE
    ensures m.body.Echo? && m.body.id == id && m.body.sequence == lastSequence + 1
    ensures |m.body.data| == DATA_LENGTH
    ensures BytesToUint64(m.body.data[..8]) == bigID
    ensures BytesToUnixNano(m.body.data[8..]) == now
  {
    Message(GetICMPType(isIPv4), ECHO_CODE, Echo(id, lastSequence + 1, EchoPayload(bigID, now)))
  }

  /** The echo reply a host sends back for an echo request: the reply type of
      the same family, code 0, and the request's identifier, sequence number
      and data. The identifier and sequence number are 16-bit fields on the
      wire, so what comes back is their value modulo 2^16. */
  function PeerReply(req: Message): (m: Message)
    requires req.body.Echo?
    ensures IsEchoReplyType(m.typ) && (m.typ.V4? <==> req.typ.V4?)
    ensures m.code == ECHO_CODE && m.body.Echo? && m.body.data == req.body.data
    ensures 0 <= m.body.id < TWO_TO_THE_16 && 0 <= m.body.sequence < TWO_TO_THE_16
  {
    var t := if req.typ.V4? then V4_ECHO_REPLY else V6_ECHO_REPLY;
    Message(t, ECHO_CODE, Echo(req.body.id % TWO_TO_THE_16, req.body.sequence % TWO_TO_THE_16, req.body.data))
  }

  /** Why checkRawPacket reported an error. */
  datatype CheckError =
    | ParseError
    | InvalidBody
    | MissingData(length: nat)

  /** Outcome of checking a received message: not a reply to the last request
      (false, nil), an error (false, err), or a match with its round-trip time
      in nanoseconds (true, nil). */
  datatype Verdict = Ignored | Failed(error: CheckError) | Matched(rtt: int64)

  /** An echo reply, by code and type, of either family. */
  predicate IsEchoReply(m: Message) {
    m.code == ECHO_CODE && IsEchoReplyType(m.typ)
  }

  /** checkRawPacket's decision as written. The checks run in order: parse,
      code and type, body kind, the identifier check (which compares the
      reply's identifier with itself and so never rejects), data length,
      sequence number against lastSequence, and the bigID in the payload. A
      match measures the round-trip time from the payload's send time to now,
      saturated as time.Time.Sub does. */
  function ClassifyReply(parsed: Option<Message>, isPrivileged: bool, lastSequence: int, bigID: uint64, now: int64): (r: Verdict)
    ensures parsed.None? <==> r == Failed(ParseError)
    ensures parsed.Some? && !IsEchoReply(parsed.value) ==> r == Ignored
    ensures parsed.Some? && IsEchoReply(parsed.value) && !parsed.value.body.Echo? ==> r == Failed(InvalidBody)
    ensures parsed.Some? && IsEchoReply(parsed.value) && parsed.value.body.Echo? && |parsed.value.body.data| < DATA_LENGTH
            ==> r == Failed(MissingData(|parsed.value.body.data|))
    ensures parsed.Some? && IsEchoReply(parsed.value) && parsed.value.body.Echo? && |parsed.value.body.data| >= DATA_LENGTH
            ==> && (r.Matched? <==> parsed.value.body.sequence == lastSequence
                                    && BytesToUint64(parsed.value.body.data[..8]) == bigID)
                && (!r.Matched? ==> r == Ignored)
    ensures r.Matched? ==>
              && parsed.Some? && IsEchoReply(parsed.value) && parsed.value.body.Echo?
              && |parsed.value.body.data| >= DATA_LENGTH
              && parsed.value.body.sequence == lastSequence
              && BytesToUint64(parsed.value.body.data[..8]) == bigID
              && r.rtt == SaturateInt64(now - BytesToUnixNano(parsed.value.body.data[8..]))
  {
    if parsed.None? then Failed(ParseError)
    else
      var m := parsed.value;
      if m.code != ECHO_CODE || (m.typ != V4_ECHO_REPLY && m.typ != V6_ECHO_REPLY) then Ignored
      else
        match m.body
        case OtherBody(_) => Failed(InvalidBody)
        case Echo(id, sequence, data) =>
          if isPrivileged && id != id then Ignored
          else if |data| < DATA_LENGTH then Failed(MissingData(|data|))
          else if sequence != lastSequence then Ignored
          else if BytesToUint64(data[..8]) != bigID then Ignored
          else Matched(SaturateInt64(now - BytesToUnixNano(data[8..])))
  }

  /** As written, privilege makes no difference: the identifier never takes
      part in the decision. */
  lemma IdentifierNeverChecked(parsed: Option<Message>, lastSequence: int, bigID: uint64, now: int64)
    ensures ClassifyReply(parsed, true, lastSequence, bigID, now) == ClassifyReply(parsed, false, lastSequence, bigID, now)
  {
  }

  /** A reply to the session's own latest request is matched, with the time
      since it was sent as its round-trip time, as long as the sequence
      number is still below 2^16. */
  lemma {:induction false} OwnReplyMatched(isIPv4: bool, isPrivileged: bool, id: int, previous: int, bigID: uint64, sent: int64, now: int64)
    requires 0 <= previous + 1 < TWO_TO_THE_16
    ensures ClassifyReply(Some(PeerReply(BuildEchoRequest(isIPv4, id, previous, bigID, sent))), isPrivileged, previous + 1, bigID, now)
            == Matched(SaturateInt64(now - sent))
  {
    var req := BuildEchoRequest(isIPv4, id, previous, bigID, sent);
    var reply := PeerReply(req);
    assert reply.body.data == req.body.data;
    assert reply.body.sequence == previous + 1;
  }

  /** A reply carrying another session's bigID is never matched, whatever its
      sequence number. */
  lemma ForeignReplyIgnored(isIPv4: bool, isPrivileged: bool, id: int, previous: int, otherID: uint64, bigID: uint64, sent: int64, now: int64)
    requires otherID != bigID
    ensures !ClassifyReply(Some(PeerReply(BuildEchoRequest(isIPv4, id, previous, otherID, sent))), isPrivileged, previous + 1, bigID, now).Matched?
  {
  }

  /** With privilege, a reply whose identifier differs from the session's is
      still matched: the identifier check at icmp.go:139 compares the field
      with itself. */
  lemma WrongIdAcceptedWhenPrivileged(bigID: uint64, sent: int64, now: int64)
    ensures var req := BuildEchoRequest(true, 7, 0, bigID, sent);
            var reply := PeerReply(req).(body := PeerReply(req).body.(id := 8));
            ClassifyReply(Some(reply), true, 1, bigID, now).Matched?
  {
    OwnReplyMatched(true, true, 7, 0, bigID, sent, now);
  }

  /** After 2^16 requests the reply's 16-bit sequence number can no longer
      equal lastSequence, so the reply to request 65536 is ignored. */
  lemma ReplyAfterWrapIgnored(isIPv4: bool, isPrivileged: bool, id: int, bigID: uint64, sent: int64, now: int64)
    ensures var reply := PeerReply(BuildEchoRequest(isIPv4, id, TWO_TO_THE_16 - 1, bigID, sent));
            reply.body.sequence == 0 && ClassifyReply(Some(reply), isPrivileged, TWO_TO_THE_16, bigID, now) == Ignored
  {
  }

  /** The decision as intended: with privilege the reply's identifier must
      equal the session id (without privilege the kernel assigns the
      identifier of a datagram socket), and the sequence number is compared
      as the 16-bit value that travels on the wire. Every other step is as in
      ClassifyReply. */
  function ClassifyReplyIntended(parsed: Option<Message>, isPrivileged: bool, id: int, lastSequence: int, bigID: uint64, now: int64): (r: Verdict)
    ensures r.Matched? ==> ClassifyReply(parsed, isPrivileged, lastSequence % TWO_TO_THE_16, bigID, now) == r
    ensures r.Matched? && isPrivileged ==> parsed.value.body.id == id
    ensures !r.Matched? ==> r == ClassifyReply(parsed, isPrivileged, lastSequence % TWO_TO_THE_16, bigID, now) || r == Ignored
    ensures parsed.Some? && IsEchoReply(parsed.value) && parsed.value.body.Echo? && |parsed.value.body.data| >= DATA_LENGTH
            ==> && (r.Matched? <==> (!isPrivileged || parsed.value.body.id == id)
                                    && parsed.value.body.sequence == lastSequence % TWO_TO_THE_16
                                    && BytesToUint64(parsed.value.body.data[..8]) == bigID)
                && (!r.Matched? ==> r == Ignored)
  {
    if parsed.Some? && IsEchoReply(parsed.value) && parsed.value.body.Echo? && isPrivileged
       && parsed.value.body.id != id
    then Ignored
    else ClassifyReply(parsed, isPrivileged, lastSequence % TWO_TO_THE_16, bigID, now)
  }

  /** The intended check rejects a privileged reply with a foreign identifier. */
  lemma IntendedRejectsForeignId(isIPv4: bool, id: int, otherId: int, previous: int, bigID: uint64, sent: int64, now: int64)
    requires 0 <= id < TWO_TO_THE_16 && otherId != id
    ensures var req := BuildEchoRequest(isIPv4, id, previous, bigID, sent);
            var reply := PeerReply(req).(body := PeerReply(req).body.(id := otherId));
            ClassifyReplyIntended(Some(reply), true, id, previous + 1, bigID, now) == Ignored
  {
  }

  /** The intended check matches the reply to the latest request for every
      sequence number, past 2^16 included. */
  lemma {:induction false} IntendedMatchesOwnReply(isIPv4: bool, isPrivileged: bool, id: int, previous: nat, bigID: uint64, sent: int64, now: int64)
    requires 0 <= id < TWO_TO_THE_16
    ensures ClassifyReplyIntended(Some(PeerReply(BuildEchoRequest(isIPv4, id, previous, bigID, sent))), isPrivileged, id, previous + 1, bigID, now)
            == Matched(SaturateInt64(now - sent))
  {
    var req := BuildEchoRequest(isIPv4, id, previous, bigID, sent);
    var reply := PeerReply(req);
    assert reply.body.data == req.body.data;
    assert reply.body.id == id;
    assert reply.body.sequence == (previous + 1) % TWO_TO_THE_16;
  }
}
