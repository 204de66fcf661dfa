/** The session statistics accumulator (core/statistics.go). The mutexes and
    atomic operations that make it safe for concurrent use are not modelled:
    every operation is one sequential step. Timestamps are int64 nanoseconds
    passed in by the caller instead of being read from the clock. */
module Stats {
  import opened Ints

  /** Sum of a sequence of round-trip times, without wrap-around. */
  function Sum(s: seq<int>): int {
    if s == [] then 0 else Sum(s[..|s| - 1]) + s[|s| - 1]
  }

  /** Sum of the squares of a sequence of round-trip times, without wrap-around. */
  function SumOfSquares(s: seq<int>): int {
    if s == [] then 0 else SumOfSquares(s[..|s| - 1]) + s[|s| - 1] * s[|s| - 1]
  }

  /** The largest element of a non-empty sequence. */
  function MaxOf(s: seq<int>): (m: int)
    requires |s| > 0
    ensures m in s
    ensures forall i :: 0 <= i < |s| ==> s[i] <= m
  {
    if |s| == 1 then s[0]
    else
      var init := s[..|s| - 1];
      assert s == init + [s[|s| - 1]];
      Max(MaxOf(init), s[|s| - 1])
  }

  /** The smallest element of a non-empty sequence. */
  function MinOf(s: seq<int>): (m: int)
    requires |s| > 0
    ensures m in s
    ensures forall i :: 0 <= i < |s| ==> m <= s[i]
  {
    if |s| == 1 then s[0]
    else
      var init := s[..|s| - 1];
      assert s == init + [s[|s| - 1]];
      Min(MinOf(init), s[|s| - 1])
  }

  /** Every field of the accumulator, as one value. */
  datatype Snapshot = Snapshot(
    totalSent: uint32,
    totalRecv: uint32,
    totalTimedOut: uint32,
    totalTTLExpired: uint32,
    rtts: seq<uint64>,
    rttsMin: uint64,
    rttsMax: uint64,
    rttsSum: uint64,
    rttsSqSum: uint64,
    stTime: int64,
    started: bool,
    endTime: int64,
    ended: bool)

  /** What the running fields say about the recorded round-trip times: the
      received count, the maximum, the minimum (never above MaxInt64, its
      starting value) and the two sums, the last three modulo 2^64 as uint64
      arithmetic leaves them. */
  predicate Consistent(s: Snapshot) {
    && s.totalRecv == Wrap32(|s.rtts|)
    && s.rttsMax == (if s.rtts == [] then 0 else MaxOf(s.rtts))
    && s.rttsMin == (if s.rtts == [] then MAX_INT64 else Min(MinOf(s.rtts), MAX_INT64))
    && s.rttsSum == Wrap64(Sum(s.rtts))
    && s.rttsSqSum == Wrap64(SumOfSquares(s.rtts))
  }

  /** The state NewStatistics builds. */
  function Initial(): (s: Snapshot)
    ensures Consistent(s)
  {
    Snapshot(
      totalSent := 0, totalRecv := 0, totalTimedOut := 0, totalTTLExpired := 0,
      rtts := [], rttsMin := MAX_INT64, rttsMax := 0, rttsSum := 0, rttsSqSum := 0,
      stTime := 0, started := false, endTime := 0, ended := false)
  }

  /** The state after EchoReplied(rtt): one more reply, the RTT appended, the
      running extremes and sums updated in uint64 arithmetic. */
  function AfterReply(s: Snapshot, rtt: uint64): Snapshot {
    s.(totalRecv := Wrap32(s.totalRecv + 1),
       rtts := s.rtts + [rtt],
       rttsMax := Max(s.rttsMax, rtt),
       rttsMin := Min(s.rttsMin, rtt),
       rttsSum := Wrap64(s.rttsSum + rtt),
       rttsSqSum := Wrap64(s.rttsSqSum + Wrap64(rtt * rtt)))
  }

  /** Recording a reply keeps the running fields in step with the recorded
      round-trip times. */
  lemma ReplyKeepsConsistent(s: Snapshot, rtt: uint64)
    requires Consistent(s)
    ensures Consistent(AfterReply(s, rtt))
  {
    var t := AfterReply(s, rtt);
    assert |t.rtts| == |s.rtts| + 1;
    CountStep(s.totalRecv, |s.rtts|);
    SumsAfterAppend(s.rttsSum, s.rttsSqSum, s.rtts, rtt);
    ExtremesAfterReply(s, rtt);
  }

  /** The running extremes after one more round-trip time. */
  lemma ExtremesAfterReply(s: Snapshot, rtt: uint64)
    requires Consistent(s)
    ensures AfterReply(s, rtt).rttsMax == MaxOf(s.rtts + [rtt])
    ensures AfterReply(s, rtt).rttsMin == Min(MinOf(s.rtts + [rtt]), MAX_INT64)
  {
    AppendExtremes(s.rtts, rtt);
  }

  /** The uint64 running sums after one more round-trip time. */
  lemma SumsAfterAppend(sum: uint64, squares: uint64, rtts: seq<uint64>, rtt: uint64)
    requires sum == Wrap64(Sum(rtts)) && squares == Wrap64(SumOfSquares(rtts))
    ensures Wrap64(sum + rtt) == Wrap64(Sum(rtts + [rtt]))
    ensures Wrap64(squares + Wrap64(rtt * rtt)) == Wrap64(SumOfSquares(rtts + [rtt]))
  {
    SumAfterAppend(sum, rtts, rtt);
    SquaresAfterAppend(squares, rtts, rtt, rtt * rtt);
  }

  lemma SumAfterAppend(sum: uint64, rtts: seq<uint64>, rtt: uint64)
    requires sum == Wrap64(Sum(rtts))
    ensures Wrap64(sum + rtt) == Wrap64(Sum(rtts + [rtt]))
  {
    AppendSum(rtts, rtt);
    var next := Sum(rtts + [rtt]);
    assert next == Sum(rtts) + rtt;
    AccumulateStep(sum, Sum(rtts), rtt);
  }

  lemma SquaresAfterAppend(squares: uint64, rtts: seq<uint64>, rtt: uint64, square: int)
    requires squares == Wrap64(SumOfSquares(rtts)) && square == rtt * rtt
    ensures Wrap64(squares + Wrap64(square)) == Wrap64(SumOfSquares(rtts + [rtt]))
  {
    AppendSquare(rtts, rtt);
    var next := SumOfSquares(rtts + [rtt]);
    assert next == SumOfSquares(rtts) + square;
    AccumulateStep(squares, SumOfSquares(rtts), square);
  }

  /** One more item on a uint32 counter that tracks n modulo 2^32. */
  lemma CountStep(counter: uint32, n: nat)
    requires counter == Wrap32(n)
    ensures Wrap32(counter + 1) == Wrap32(n + 1)
  {
    Wrap32AddLeft(n, 1);
  }

  /** Adding x to a uint64 accumulator that tracks total modulo 2^64. */
  lemma AccumulateStep(acc: uint64, total: int, x: int)
    requires acc == Wrap64(total)
    ensures Wrap64(acc + Wrap64(x)) == Wrap64(total + x)
    ensures 0 <= x < TWO_TO_THE_64 ==> Wrap64(acc + x) == Wrap64(total + x)
  {
    Wrap64AddLeft(total, Wrap64(x));
    Wrap64AddLeft(x, total);
  }

  /** The sum after one more element. */
  lemma AppendSum(s: seq<int>, x: int)
    ensures Sum(s + [x]) == Sum(s) + x
  {
    assert (s + [x])[..|s|] == s;
  }

  /** The sum of squares after one more element. */
  lemma AppendSquare(s: seq<int>, x: int)
    ensures SumOfSquares(s + [x]) == SumOfSquares(s) + x * x
  {
    assert (s + [x])[..|s|] == s;
  }

  /** The extremes after one more element. */
  lemma AppendExtremes(s: seq<int>, x: int)
    ensures MaxOf(s + [x]) == if s == [] then x else Max(MaxOf(s), x)
    ensures MinOf(s + [x]) == if s == [] then x else Min(MinOf(s), x)
  {
    assert (s + [x])[..|s|] == s;
  }

  /** n copies of the minimum are at most the sum. */
  lemma {:induction false} SumAtLeastMin(s: seq<int>)
    requires |s| > 0
    ensures |s| * MinOf(s) <= Sum(s)
  {
    if |s| > 1 {
      var init, last := s[..|s| - 1], s[|s| - 1];
      var m, mi, k := MinOf(s), MinOf(init), |init|;
      SumAtLeastMin(init);
      assert m <= mi && m <= last;
      MulMonotone(k, m, mi);
      MulSucc(k, m);
    }
  }

  /** The sum is at most n copies of the maximum. */
  lemma {:induction false} SumAtMostMax(s: seq<int>)
    requires |s| > 0
    ensures Sum(s) <= |s| * MaxOf(s)
  {
    if |s| > 1 {
      var init, last := s[..|s| - 1], s[|s| - 1];
      var m, mi, k := MaxOf(s), MaxOf(init), |init|;
      SumAtMostMax(init);
      assert mi <= m && last <= m;
      MulMonotone(k, mi, m);
      MulSucc(k, m);
    }
  }

  lemma MulMonotone(n: nat, a: int, b: int)
    requires a <= b
    ensures n * a <= n * b
  {
    assert n * b - n * a == n * (b - a);
  }

  lemma MulSucc(k: int, a: int)
    ensures (k + 1) * a == k * a + a
  {
  }

  /** The integer mean of a non-empty sequence lies between its extremes. */
  lemma MeanBetweenExtremes(s: seq<int>)
    requires |s| > 0
    ensures MinOf(s) <= Sum(s) / |s| <= MaxOf(s)
  {
    SumAtLeastMin(s);
    SumAtMostMax(s);
    QuotientBounds(|s|, Sum(s), MinOf(s), MaxOf(s));
  }

  /** Dividing n*lo <= total <= n*hi by n. */
  lemma QuotientBounds(n: nat, total: int, lo: int, hi: int)
    requires n > 0 && n * lo <= total <= n * hi
    ensures lo <= total / n <= hi
  {
    var q, r := total / n, total % n;
    assert total == n * q + r && 0 <= r < n;
    if q < lo {
      MulSucc(q, n);
      MulMonotone(n, q + 1, lo);
      assert false;
    }
    if q > hi {
      MulSucc(hi, n);
      MulMonotone(n, hi + 1, q);
      assert false;
    }
  }

  /** Three uint32 subtractions in a row: the result plus what was taken away
      is the start modulo 2^32, and without underflow it is the plain
      difference. */
  lemma PendingArithmetic(sent: uint32, a: uint32, b: uint32, c: uint32)
    ensures var r := Wrap32(Wrap32(Wrap32(sent - a) - b) - c);
            Wrap32(r + a + b + c) == sent
            && (sent >= a + b + c ==> r == sent - a - b - c)
  {
    var diff := sent - a - b - c;
    Wrap32AddLeft(sent - a, -(b as int));
    Wrap32AddLeft(sent - a - b, -(c as int));
    assert Wrap32(Wrap32(Wrap32(sent - a) - b) - c) == Wrap32(diff);
    Wrap32AddLeft(diff, a + b + c);
    Wrap32InRange(sent);
    if sent >= a + b + c {
      Wrap32InRange(diff);
    }
  }

  /** The accumulator: counters, recorded round-trip times, running extremes
      and sums, and the start and end timestamps with their "set" flags. */
  class Statistics {
    var totalSent: uint32
    var totalRecv: uint32
    var totalTimedOut: uint32
    var totalTTLExpired: uint32
    var rtts: seq<uint64>
    var rttsMin: uint64
    var rttsMax: uint64
    var rttsSum: uint64
    var rttsSqSum: uint64
    var stTime: int64
    var started: bool
    var endTime: int64
    var ended: bool

    function State(): Snapshot
      reads this
    {
      Snapshot(totalSent, totalRecv, totalTimedOut, totalTTLExpired,
        rtts, rttsMin, rttsMax, rttsSum, rttsSqSum, stTime, started, endTime, ended)
    }

    ghost predicate Valid()
      reads this
    {
      Consistent(State())
    }

    /** NewStatistics: all counters zero, no round-trip times, maximum 0,
        minimum MaxInt64, neither timestamp set. */
    constructor ()
      ensures State() == Initial()
      ensures Valid()
    {
      totalSent, totalRecv, totalTimedOut, totalTTLExpired := 0, 0, 0, 0;
      rtts := [];
      rttsMin, rttsMax, rttsSum, rttsSqSum := MAX_INT64, 0, 0, 0;
      stTime, started, endTime, ended := 0, false, 0, false;
    }

    /** SessionStarted: records the start time and marks it set. */
    method SessionStarted(now: int64)
      requires Valid()
      modifies this
      ensures Valid()
      ensures State() == old(State()).(stTime := now, started := true)
      ensures GetStartTime() == (now, true)
    {
      stTime := now;
      started := true;
    }

    /** SessionEnded: records the end time and marks it set. */
    method SessionEnded(now: int64)
      requires Valid()
      modifies this
      ensures Valid()
      ensures State() == old(State()).(endTime := now, ended := true)
      ensures GetEndTime() == (now, true)
    {
      endTime := now;
      ended := true;
    }

    /** EchoRequested: one more request sent; nothing else changes. */
    method EchoRequested()
      requires Valid()
      modifies this
      ensures Valid()
      ensures State() == old(State()).(totalSent := Wrap32(old(totalSent) + 1))
    {
      totalSent := Wrap32(totalSent + 1);
    }

    /** EchoReplied: one more reply, with its round-trip time folded into the
        recorded times, the extremes and the sums. */
    method EchoReplied(rtt: uint64)
      requires Valid()
      modifies this
      ensures Valid()
      ensures State() == AfterReply(old(State()), rtt)
    {
      var next := AfterReply(State(), rtt);
      ReplyKeepsConsistent(State(), rtt);
      totalRecv, rtts := next.totalRecv, next.rtts;
      rttsMax, rttsMin := next.rttsMax, next.rttsMin;
      rttsSum, rttsSqSum := next.rttsSum, next.rttsSqSum;
      assert State() == next;
    }

    /** EchoTimedOut: one more timed-out request; nothing else changes. */
    method EchoTimedOut()
      requires Valid()
      modifies this
      ensures Valid()
      ensures State() == old(State()).(totalTimedOut := Wrap32(old(totalTimedOut) + 1))
    {
      totalTimedOut := Wrap32(totalTimedOut + 1);
    }

    /** EchoTTLExpired: one more request whose TTL expired; nothing else changes. */
    method EchoTTLExpired()
      requires Valid()
      modifies this
      ensures Valid()
      ensures State() == old(State()).(totalTTLExpired := Wrap32(old(totalTTLExpired) + 1))
    {
      totalTTLExpired := Wrap32(totalTTLExpired + 1);
    }

    function GetStartTime(): (int64, bool)
      reads this
    {
      (stTime, started)
    }

    function GetEndTime(): (int64, bool)
      reads this
    {
      (endTime, ended)
    }

    function GetTotalSent(): uint32
      reads this
    {
      totalSent
    }

    function GetTotalRecv(): uint32
      reads this
    {
      totalRecv
    }

    function GetTotalTimedOut(): uint32
      reads this
    {
      totalTimedOut
    }

    function GetTotalTTLExpired(): uint32
      reads this
    {
      totalTTLExpired
    }

    /** GetTotalPending: sent minus the three resolved counts, each subtraction
        in uint32 arithmetic. Pending plus resolved is always sent modulo 2^32,
        and without underflow it is the plain difference. */
    function GetTotalPending(): (r: uint32)
      reads this
      ensures Wrap32(r + totalRecv + totalTimedOut + totalTTLExpired) == totalSent
      ensures totalSent >= totalRecv + totalTimedOut + totalTTLExpired
              ==> r == totalSent - totalRecv - totalTimedOut - totalTTLExpired
    {
      var d1 := Wrap32(GetTotalSent() - GetTotalRecv());
      var d2 := Wrap32(d1 - GetTotalTimedOut());
      var d3 := Wrap32(d2 - GetTotalTTLExpired());
      PendingArithmetic(totalSent, totalRecv, totalTimedOut, totalTTLExpired);
      d3
    }

    /** GetPktLoss as an exact rational: 1 - received/sent, and 0 before
        anything was sent. */
    function GetPktLoss(): (r: real)
      reads this
      ensures totalSent == 0 ==> r == 0.0
      ensures totalRecv <= totalSent ==> 0.0 <= r <= 1.0
      ensures totalSent > 0 && totalRecv == 0 ==> r == 1.0
      ensures totalSent > 0 && totalRecv == totalSent ==> r == 0.0
    {
      if GetTotalSent() == 0 then 0.0
      else 1.0 - GetTotalRecv() as real / GetTotalSent() as real
    }

    /** GetRTTMax: the largest recorded round-trip time, 0 before any reply. */
    function GetRTTMax(): (r: uint64)
      reads this
      requires Valid()
      ensures rtts == [] ==> r == 0
      ensures rtts != [] ==> r in rtts && forall i :: 0 <= i < |rtts| ==> rtts[i] <= r
    {
      rttsMax
    }

    /** GetRTTMin: min(rttsMax, rttsMin), so 0 before any reply; afterwards a
        lower bound of every recorded time that is itself recorded whenever the
        smallest time fits in an int64. */
    function GetRTTMin(): (r: uint64)
      reads this
      requires Valid()
      ensures rtts == [] ==> r == 0
      ensures rtts != [] ==> r == Min(MinOf(rtts), MAX_INT64)
      ensures rtts != [] ==> r <= GetRTTMax() && forall i :: 0 <= i < |rtts| ==> r <= rtts[i]
      ensures rtts != [] && MinOf(rtts) <= MAX_INT64 ==> r in rtts
    {
      Min(rttsMax, rttsMin)
    }

    /** GetRTTAvg: 0 with no replies, otherwise the uint64 sum divided by the
        number of replies. */
    function GetRTTAvg(): (r: uint64)
      reads this
      requires Valid()
      ensures rtts == [] ==> r == 0
      ensures rtts != [] ==> r == Wrap64(Sum(rtts)) / |rtts|
    {
      if |rtts| == 0 then 0 else rttsSum / |rtts|
    }
  }

  /** Once some reply is recorded and the sum has not wrapped around,
      min <= avg <= max. */
  lemma AverageWithinExtremes(st: Statistics)
    requires st.Valid()
    requires st.rtts != [] && Sum(st.rtts) < TWO_TO_THE_64
    ensures st.GetRTTMin() <= st.GetRTTAvg() <= st.GetRTTMax()
  {
    var n, total := |st.rtts|, Sum(st.rtts);
    var lo, hi := MinOf(st.rtts), MaxOf(st.rtts);
    MeanBetweenExtremes(st.rtts);
    assert 0 <= total by {
      SumAtLeastMin(st.rtts);
      MulMonotone(n, 0, lo);
    }
    Wrap64InRange(total);
    assert st.GetRTTAvg() == total / n;
    assert st.GetRTTMin() <= lo;
    assert st.GetRTTMax() == hi;
  }
}
