/** The round-trip record every completed request attempt produces
    (core/roundtrip.go). */
module RoundTrips {
  import opened Ints
  import opened Wrappers

  /** RoundTripResult: how a request attempt ended. */
  datatype RoundTripResult = Replied | TTLExpired | TimedOut

  /** The integer value of each result, assigned by iota in declaration order. */
  function Ordinal(res: RoundTripResult): (k: nat)
    ensures k < 3
    ensures res.Replied? <==> k == 0
    ensures res.TTLExpired? <==> k == 1
  {
    match res
    case Replied => 0
    case TTLExpired => 1
    case TimedOut => 2
  }

  /** The result whose iota value is k, when there is one. */
  function FromOrdinal(k: int): (res: Option<RoundTripResult>)
    ensures res.Some? <==> 0 <= k < 3
    ensures res.Some? ==> Ordinal(res.value) == k
  {
    if k == 0 then Some(Replied)
    else if k == 1 then Some(TTLExpired)
    else if k == 2 then Some(TimedOut)
    else None
  }

  /** RoundTrip: ttl is the time-to-live (or hop limit) read from a received
      packet, sequence the sequence number, length the reply length, src the reply's
      source address (nil for a timeout), time the elapsed nanoseconds. */
  datatype RoundTrip = RoundTrip(
    ttl: int,
    sequence: int,
    length: int,
    src: Option<seq<uint8>>,
    time: int64,
    res: RoundTripResult)

  /** The three results are numbered 0, 1, 2 without gaps or clashes. */
  lemma {:induction false} OrdinalBijective(res: RoundTripResult)
    ensures FromOrdinal(Ordinal(res)) == Some(res)
  {
    match res
    case Replied =>
    case TTLExpired =>
    case TimedOut =>
  }
}
