/** The session decision logic (core/session.go, with the session-state parts
    of core/icmp.go). The event loop, the polling goroutine, channels and the
    clock are not modelled: each handler is one sequential step, the caller
    passes in the current time and the outcome of every I/O call, and timers
    are values.

    One coherent session state is used for the fields the files spread over
    several revisions: requestEcho's s.totalSent, checkRawPacket's
    s.totalReceived, s.maxRtt and s.rtts, and session.go's s.Stats.TotalSent,
    RTTs, RTTsMax and TotalRecv are all the Statistics object `stats`, updated
    through EchoRequested and EchoReplied. */
module Sessions {
  import opened Ints
  import opened Wrappers
  import opened RoundTrips
  import opened Config
  import opened IpUtils
  import opened Stats
  import opened Icmp

  const NANOS_PER_SECOND: int := 1_000_000_000

  /** A time.Timer: stopped (or fired and not reset), or armed to fire after
      the given number of nanoseconds. */
  datatype Timer = Stopped | Armed(ns: int64)

  /** Start callbacks: the built-in initStatsCb, or one registered by a user. */
  datatype StartHandler = InitStatsCb | StartCb(tag: nat)

  /** Round-trip callbacks, all registered by users. */
  datatype RoundTripHandler = RoundTripCb(tag: nat)

  /** End callbacks: the built-in finishStatsCb, or one registered by a user. */
  datatype EndHandler = FinishStatsCb | EndCb(tag: nat)

  /** One callback invocation with its arguments. */
  datatype Event =
    | StartCalled(startHandler: StartHandler, sample: Message)
    | RoundTripCalled(roundTripHandler: RoundTripHandler, rt: RoundTrip)
    | EndCalled(endHandler: EndHandler)

  /** The invocations of the start handlers, in registration order. */
  function StartCalls(hs: seq<StartHandler>, sample: Message): (events: seq<Event>)
    ensures |events| == |hs|
    ensures forall i :: 0 <= i < |hs| ==> events[i] == StartCalled(hs[i], sample)
  {
    if hs == [] then [] else StartCalls(hs[..|hs| - 1], sample) + [StartCalled(hs[|hs| - 1], sample)]
  }

  /** The invocations of the round-trip handlers, in registration order. */
  function RoundTripCalls(hs: seq<RoundTripHandler>, rt: RoundTrip): (events: seq<Event>)
    ensures |events| == |hs|
    ensures forall i :: 0 <= i < |hs| ==> events[i] == RoundTripCalled(hs[i], rt)
  {
    if hs == [] then [] else RoundTripCalls(hs[..|hs| - 1], rt) + [RoundTripCalled(hs[|hs| - 1], rt)]
  }

  /** The invocations of the end handlers, in registration order. */
  function EndCalls(hs: seq<EndHandler>): (events: seq<Event>)
    ensures |events| == |hs|
    ensures forall i :: 0 <= i < |hs| ==> events[i] == EndCalled(hs[i])
  {
    if hs == [] then [] else EndCalls(hs[..|hs| - 1]) + [EndCalled(hs[|hs| - 1])]
  }

  /** getDeadlineDuration: Deadline seconds in int64 nanoseconds. */
  function DeadlineDuration(settings: Settings): (d: int64)
    ensures -TWO_TO_THE_63 <= NANOS_PER_SECOND * settings.deadline <= MAX_INT64 ==> d == NANOS_PER_SECOND * settings.deadline
  {
    var ns := NANOS_PER_SECOND * settings.deadline;
    if -TWO_TO_THE_63 <= ns <= MAX_INT64 then WrapInt64InRange(ns); WrapInt64(ns)
    else WrapInt64(ns)
  }

  /** getIntervalDuration: Interval seconds in int64 nanoseconds. */
  function IntervalDuration(settings: Settings): (d: int64)
    ensures -TWO_TO_THE_63 <= NANOS_PER_SECOND * settings.interval <= MAX_INT64 ==> d == NANOS_PER_SECOND * settings.interval
  {
    var ns := NANOS_PER_SECOND * settings.interval;
    if -TWO_TO_THE_63 <= ns <= MAX_INT64 then WrapInt64InRange(ns); WrapInt64(ns)
    else WrapInt64(ns)
  }

  /** getTimeoutDuration: twice the longest round-trip time once a reply has
      been recorded, the configured Timeout seconds before that. */
  function TimeoutDuration(settings: Settings, st: Snapshot): (d: int64)
    ensures Consistent(st) && st.rtts != [] && 2 * MaxOf(st.rtts) <= MAX_INT64 ==> d == 2 * MaxOf(st.rtts)
    ensures st.rtts == [] && 0 <= NANOS_PER_SECOND * settings.timeout <= MAX_INT64
            ==> d == NANOS_PER_SECOND * settings.timeout
  {
    if |st.rtts| > 0 then
      var twice := 2 * st.rttsMax;
      if twice <= MAX_INT64 then WrapInt64InRange(twice); WrapInt64(twice)
      else WrapInt64(twice)
    else
      var configured := NANOS_PER_SECOND * settings.timeout;
      if 0 <= configured <= MAX_INT64 then WrapInt64InRange(configured); WrapInt64(configured)
      else WrapInt64(configured)
  }

  /** isDeadlineActive */
  predicate IsDeadlineActive(settings: Settings) {
    settings.deadline > 0
  }

  /** isMaxCountActive */
  predicate IsMaxCountActive(settings: Settings) {
    settings.maxCount > 0
  }

  /** reachedRequestLimit: a count limit is set and that many requests have
      been sent. */
  predicate ReachedRequestLimit(settings: Settings, st: Snapshot) {
    IsMaxCountActive(settings) && st.totalSent >= settings.maxCount
  }

  /** buildTimedOutRT: the record of the latest request timing out. It has no
      reply, so no TTL, length or source; its time is the timeout that ran. */
  function BuildTimedOutRT(settings: Settings, st: Snapshot, lastSequence: int): (rt: RoundTrip)
    ensures rt.res == TimedOut && rt.sequence == lastSequence && rt.time == TimeoutDuration(settings, st)
    ensures rt.ttl == 0 && rt.length == 0 && rt.src == None
  {
    RoundTrip(ttl := 0, sequence := lastSequence, length := 0, src := None,
              time := TimeoutDuration(settings, st), res := TimedOut)
  }

  /** Under DefaultSettings neither the deadline nor the count limit is
      active, whatever has been sent, and the first timeout is 10 seconds. */
  lemma DefaultsDisableLimits(st: Snapshot)
    ensures !IsDeadlineActive(DefaultSettings())
    ensures !IsMaxCountActive(DefaultSettings()) && !ReachedRequestLimit(DefaultSettings(), st)
    ensures TimeoutDuration(DefaultSettings(), Initial()) == 10 * NANOS_PER_SECOND
  {
  }

  /** Each request sent moves one step towards an explicit count limit: after
      one more request the limit is reached exactly when the count sent so far
      plus one is at least maxCount, and once reached it stays reached. */
  lemma {:induction false} RequestLimitCountsRequests(settings: Settings, st: Snapshot)
    requires Validate(settings) && !settings.isMaxCountDefault
    requires st.totalSent < TWO_TO_THE_32 - 1
    ensures ReachedRequestLimit(settings, st.(totalSent := Wrap32(st.totalSent + 1)))
            <==> st.totalSent + 1 >= settings.maxCount
    ensures ReachedRequestLimit(settings, st) ==> ReachedRequestLimit(settings, st.(totalSent := Wrap32(st.totalSent + 1)))
  {
    Wrap32InRange(st.totalSent + 1);
  }

  class Session {
    /** Stats: the session's statistics. */
    const stats: Statistics
    const settings: Settings
    /** id: the identifier in the echo body, below math.MaxUint16. */
    const id: int
    /** bigID: the identifier in the echo payload. */
    const bigID: uint64
    const isIPv4: bool
    /** lastSequence: the sequence number of the last request sent. */
    var lastSequence: nat
    var isStarted: bool
    var isFinished: bool
    /** finishReqs: the finish requests queued and not yet received. */
    var finishReqs: seq<Outcome>
    /** finished: the values sent on the finished channel. */
    var finished: seq<bool>
    var deadline: Timer
    var timeout: Timer
    var interval: Timer
    var stHandlers: seq<StartHandler>
    var rtHandlers: seq<RoundTripHandler>
    var endHandlers: seq<EndHandler>
    /** Every callback invocation so far, oldest first. */
    var log: seq<Event>

    /** The struct literal of NewSession: fresh statistics, sequence 0, no
        handlers, nothing queued, neither started nor finished. The timers do
        not exist until Run creates them; they are modelled as stopped. */
    constructor (settings: Settings, id: int, bigID: uint64, isIPv4: bool)
      requires 0 <= id < TWO_TO_THE_16 - 1
      ensures this.settings == settings && this.id == id && this.bigID == bigID && this.isIPv4 == isIPv4
      ensures fresh(stats) && stats.State() == Initial() && stats.Valid()
      ensures lastSequence == 0 && !isStarted && !isFinished
      ensures finishReqs == [] && finished == [] && log == []
      ensures deadline == Stopped && timeout == Stopped && interval == Stopped
      ensures stHandlers == [] && rtHandlers == [] && endHandlers == []
    {
      stats := new Statistics();
      this.settings := settings;
      this.id := id;
      this.bigID := bigID;
      this.isIPv4 := isIPv4;
      lastSequence := 0;
      isStarted, isFinished := false, false;
      finishReqs, finished := [], [];
      deadline, timeout, interval := Stopped, Stopped, Stopped;
      stHandlers, rtHandlers, endHandlers := [], [], [];
      log := [];
    }

    /** NewSession: invalid settings and an address that does not resolve are
        errors; otherwise a new session with the built-in start and end
        handlers registered. The address family is taken from the resolved
        address; the id and bigID are the random draws. */
    static method NewSession(settings: Settings, resolved: Option<seq<uint8>>, id: int, bigID: uint64)
      returns (s: Session?, err: Outcome)
      requires 0 <= id < TWO_TO_THE_16 - 1
      ensures !Validate(settings) ==> s == null && err == Fail("invalid settings")
      ensures Validate(settings) && resolved.None? ==> s == null && err == Fail("error while resolving address")
      ensures Validate(settings) && resolved.Some? ==>
                && err == Pass && s != null && fresh(s) && fresh(s.stats)
                && s.settings == settings && s.id == id && s.bigID == bigID
                && s.isIPv4 == IsIPv4(resolved.value)
                && s.stats.Valid() && s.stats.State() == Initial()
                && s.lastSequence == 0 && !s.isStarted && !s.isFinished
                && s.finishReqs == [] && s.finished == [] && s.log == []
                && s.stHandlers == [InitStatsCb] && s.rtHandlers == [] && s.endHandlers == [FinishStatsCb]
    {
      if !Validate(settings) {
        return null, Fail("invalid settings");
      }
      if resolved.None? {
        return null, Fail("error while resolving address");
      }
      s := new Session(settings, id, bigID, IsIPv4(resolved.value));
      s.AddStHandler(InitStatsCb);
      s.AddEndHandler(FinishStatsCb);
      err := Pass;
    }

    /** AddRtHandler: one more round-trip handler, last in order. */
    method AddRtHandler(h: RoundTripHandler)
      modifies this`rtHandlers
      ensures rtHandlers == old(rtHandlers) + [h]
    {
      rtHandlers := rtHandlers + [h];
    }

    /** AddStHandler: one more start handler, last in order. */
    method AddStHandler(h: StartHandler)
      modifies this`stHandlers
      ensures stHandlers == old(stHandlers) + [h]
    {
      stHandlers := stHandlers + [h];
    }

    /** AddEndHandler: one more end handler, last in order. */
    method AddEndHandler(h: EndHandler)
      modifies this`endHandlers
      ensures endHandlers == old(endHandlers) + [h]
    {
      endHandlers := endHandlers + [h];
    }

    /** Run up to the event loop. A finished or already started session is an
        error and nothing changes. Otherwise the session is marked started,
        every start handler is called with a sample echo request, and, once
        the connection is open, the timers are initialised. A connection error
        is returned as it is. */
    method Run(now: int64, connection: Outcome) returns (err: Outcome)
      requires stats.Valid()
      modifies this`isStarted, this`log, this`deadline, this`timeout, this`interval, stats
      ensures stats.Valid()
      ensures old(isFinished) ==> err == Fail("This session has already finished") && unchanged(this, stats)
      ensures !old(isFinished) && old(isStarted) ==> err == Fail("This session has already started") && unchanged(this, stats)
      ensures !old(isFinished) && !old(isStarted) ==>
                && isStarted
                && log == old(log) + StartCalls(stHandlers, BuildEchoRequest(isIPv4, id, lastSequence, bigID, now))
                && stats.State() == StartEffect(old(stats.State()), stHandlers, now)
                && (connection.Fail? ==>
                      err == connection && unchanged(this`deadline, this`timeout, this`interval))
                && (connection.Pass? ==>
                      err == Pass
                      && deadline == Armed(DeadlineDuration(settings))
                      && timeout == Armed(TimeoutDuration(settings, old(stats.State())))
                      && interval == Armed(0))
    {
      if isFinished {
        return Fail("This session has already finished");
      }
      if isStarted {
        return Fail("This session has already started");
      }
      var before := stats.State();
      Start(now);
      if connection.Fail? {
        return connection;
      }
      InitTimers(TimeoutDuration(settings, before));
      err := Pass;
    }

    /** The session marked started and every start handler called with a
        sample echo request. */
    method Start(now: int64)
      requires stats.Valid()
      modifies this`isStarted, this`log, stats
      ensures stats.Valid()
      ensures isStarted
      ensures log == old(log) + StartCalls(stHandlers, BuildEchoRequest(isIPv4, id, lastSequence, bigID, now))
      ensures stats.State() == StartEffect(old(stats.State()), stHandlers, now)
    {
      isStarted := true;
      RunStartHandlers(BuildEchoRequest(isIPv4, id, lastSequence, bigID, now), now);
    }

    /** initTimers: the deadline timer armed with the deadline, the timeout
        timer with the given timeout, the interval timer to fire at once. */
    method InitTimers(timeoutDuration: int64)
      modifies this`deadline, this`timeout, this`interval
      ensures deadline == Armed(DeadlineDuration(settings))
      ensures timeout == Armed(timeoutDuration)
      ensures interval == Armed(0)
    {
      deadline := Armed(DeadlineDuration(settings));
      timeout := Armed(timeoutDuration);
      interval := Armed(0);
    }

    /** Calls every start handler once, in registration order. */
    method RunStartHandlers(sample: Message, now: int64)
      requires stats.Valid()
      modifies this`log, stats
      ensures stats.Valid()
      ensures log == old(log) + StartCalls(stHandlers, sample)
      ensures stats.State() == StartEffect(old(stats.State()), stHandlers, now)
    {
      var i := 0;
      while i < |stHandlers|
        invariant 0 <= i <= |stHandlers|
        invariant stats.Valid()
        invariant log == old(log) + StartCalls(stHandlers[..i], sample)
        invariant stats.State() == StartEffect(old(stats.State()), stHandlers[..i], now)
      {
        var h := stHandlers[i];
        if h == InitStatsCb {
          stats.SessionStarted(now);
        }
        log := log + [StartCalled(h, sample)];
        assert stHandlers[..i + 1] == stHandlers[..i] + [h];
        i := i + 1;
      }
      assert stHandlers[..i] == stHandlers;
    }

    /** RequestStop: a finished session ignores it; otherwise one finish
        request is queued. */
    method RequestStop()
      modifies this`finishReqs
      ensures finishReqs == old(finishReqs) + (if isFinished then [] else [Pass])
    {
      if isFinished {
        return;
      }
      finishReqs := finishReqs + [Pass];
    }

    /** handleDeadlineTimer: the deadline has fired; a finish request is
        queued exactly when a deadline was configured. */
    method HandleDeadlineTimer()
      modifies this`deadline, this`finishReqs
      ensures deadline == Stopped
      ensures finishReqs == old(finishReqs) + (if IsDeadlineActive(settings) then [Pass] else [])
    {
      deadline := Stopped;
      if !IsDeadlineActive(settings) {
        return;
      }
      finishReqs := finishReqs + [Pass];
    }

    /** handleTimeoutTimer: the latest request timed out. Its record goes to
        the round-trip handlers and leaves the statistics as they are; then
        either the count limit is reached and a finish request is queued, or
        the interval timer is re-armed for the next request. */
    method HandleTimeoutTimer()
      requires stats.Valid()
      modifies this`timeout, this`interval, this`log, this`finishReqs, stats
      ensures stats.Valid() && stats.State() == old(stats.State())
      ensures timeout == Stopped
      ensures log == old(log) + RoundTripCalls(rtHandlers, BuildTimedOutRT(settings, stats.State(), lastSequence))
      ensures ReachedRequestLimit(settings, stats.State()) ==>
                finishReqs == old(finishReqs) + [Pass] && interval == old(interval)
      ensures !ReachedRequestLimit(settings, stats.State()) ==>
                finishReqs == old(finishReqs) && interval == Armed(IntervalDuration(settings))
    {
      timeout := Stopped;
      var rt := BuildTimedOutRT(settings, stats.State(), lastSequence);
      ProcessRoundTrip(rt);
      if ReachedRequestLimit(settings, stats.State()) {
        finishReqs := finishReqs + [Pass];
        return;
      }
      interval := Armed(IntervalDuration(settings));
    }

    /** handleIntervalTimer: time for the next request. The timeout timer is
        armed for its reply and the request is sent; if sending fails the
        interval timer is re-armed and the timeout timer stopped. */
    method HandleIntervalTimer(now: int64, marshal: Outcome, write: Outcome) returns (req: Message)
      requires stats.Valid()
      modifies this`interval, this`timeout, this`lastSequence, stats
      ensures stats.Valid()
      ensures req == BuildEchoRequest(isIPv4, id, old(lastSequence), bigID, now)
      ensures marshal.Fail? ==> lastSequence == old(lastSequence) && stats.State() == old(stats.State())
      ensures marshal.Pass? ==>
                && lastSequence == old(lastSequence) + 1
                && stats.State() == old(stats.State()).(totalSent := Wrap32(old(stats.totalSent) + 1))
      ensures marshal.Pass? && write.Pass? ==>
                interval == Stopped && timeout == Armed(TimeoutDuration(settings, old(stats.State())))
      ensures !(marshal.Pass? && write.Pass?) ==>
                interval == Armed(IntervalDuration(settings)) && timeout == Stopped
    {
      interval := Stopped;
      timeout := Armed(TimeoutDuration(settings, stats.State()));
      var err;
      req, err := RequestEcho(now, marshal, write);
      if err.Fail? {
        interval := Armed(IntervalDuration(settings));
        timeout := Stopped;
      }
    }

    /** requestEcho: builds the next echo request. If it cannot be marshalled
        the error is returned and nothing changes; otherwise it counts as sent
        and the sequence number advances, whether or not the write failed,
        and the write's outcome is returned. */
    method RequestEcho(now: int64, marshal: Outcome, write: Outcome) returns (req: Message, err: Outcome)
      requires stats.Valid()
      modifies this`lastSequence, stats
      ensures stats.Valid()
      ensures req == BuildEchoRequest(isIPv4, id, old(lastSequence), bigID, now)
      ensures marshal.Fail? ==> err == marshal && lastSequence == old(lastSequence) && stats.State() == old(stats.State())
      ensures marshal.Pass? ==>
                && err == write
                && lastSequence == old(lastSequence) + 1
                && req.body.sequence == lastSequence
                && stats.State() == old(stats.State()).(totalSent := Wrap32(old(stats.totalSent) + 1))
    {
      req := BuildEchoRequest(isIPv4, id, lastSequence, bigID, now);
      if marshal.Fail? {
        return req, marshal;
      }
      stats.EchoRequested();
      lastSequence := lastSequence + 1;
      err := write;
    }

    /** checkRawPacket as written: the verdict of ClassifyReply; a match is
        recorded as one more reply with its round-trip time. */
    method CheckRawPacket(parsed: Option<Message>, now: int64) returns (matched: bool, err: Option<CheckError>)
      requires stats.Valid()
      modifies stats
      ensures stats.Valid()
      ensures var v := ClassifyReply(parsed, settings.isPrivileged, lastSequence, bigID, now);
              && matched == v.Matched?
              && err == (if v.Failed? then Some(v.error) else None)
              && stats.State() == (if v.Matched? then AfterReply(old(stats.State()), Wrap64(v.rtt)) else old(stats.State()))
    {
      var v := ClassifyReply(parsed, settings.isPrivileged, lastSequence, bigID, now);
      match v
      case Ignored =>
        matched, err := false, None;
      case Failed(e) =>
        matched, err := false, Some(e);
      case Matched(rtt) =>
        stats.EchoReplied(Wrap64(rtt));
        matched, err := true, None;
    }

    /** handleRawPacket: a packet that is an error or no match changes
        nothing. A match stops the timeout timer, re-arms the interval timer,
        passes a Replied record to ProcessRoundTrip and, once the count limit
        is reached, queues a finish request. The match uses the intended
        decision, ClassifyReplyIntended. */
    method HandleRawPacket(raw: RawPacket, now: int64)
      requires stats.Valid()
      modifies this`timeout, this`interval, this`log, this`finishReqs, stats
      ensures stats.Valid()
      ensures var v := ClassifyReplyIntended(raw.content, settings.isPrivileged, id, lastSequence, bigID, now);
              !v.Matched? ==> unchanged(this, stats)
      ensures var v := ClassifyReplyIntended(raw.content, settings.isPrivileged, id, lastSequence, bigID, now);
              v.Matched? ==>
                && stats.State() == AfterReply(old(stats.State()), Wrap64(v.rtt))
                && timeout == Stopped && interval == Armed(IntervalDuration(settings))
                && log == old(log) + RoundTripCalls(rtHandlers, ReplyRecord(raw, v.rtt))
                && finishReqs == old(finishReqs) + (if ReachedRequestLimit(settings, stats.State()) then [Pass] else [])
    {
      var v := ClassifyReplyIntended(raw.content, settings.isPrivileged, id, lastSequence, bigID, now);
      if !v.Matched? {
        return;
      }
      timeout := Stopped;
      interval := Armed(IntervalDuration(settings));
      ProcessRoundTrip(ReplyRecord(raw, v.rtt));
      if ReachedRequestLimit(settings, stats.State()) {
        finishReqs := finishReqs + [Pass];
      }
    }

    /** handleFinishRequest: an error is returned as it is and nothing else
        happens. Otherwise the request is passed on, every end handler is
        called once in registration order, true is sent on finished, and the
        session is finished. */
    method HandleFinishRequest(err: Outcome, now: int64) returns (r: Outcome)
      requires stats.Valid()
      modifies this`finishReqs, this`log, this`finished, this`isFinished, stats
      ensures stats.Valid()
      ensures err.Fail? ==> r == err && unchanged(this, stats)
      ensures err.Pass? ==>
                && r == Pass
                && stats.State() == EndEffect(old(stats.State()), endHandlers, now)
                && finishReqs == old(finishReqs) + [Pass]
                && log == old(log) + EndCalls(endHandlers)
                && finished == old(finished) + [true]
                && isFinished
    {
      if err.Fail? {
        return err;
      }
      finishReqs := finishReqs + [Pass];
      RunEndHandlers(now);
      finished := finished + [true];
      isFinished := true;
      r := Pass;
    }

    /** Calls every end handler once, in registration order. */
    method RunEndHandlers(now: int64)
      requires stats.Valid()
      modifies this`log, stats
      ensures stats.Valid()
      ensures log == old(log) + EndCalls(endHandlers)
      ensures stats.State() == EndEffect(old(stats.State()), endHandlers, now)
    {
      var i := 0;
      while i < |endHandlers|
        invariant 0 <= i <= |endHandlers|
        invariant stats.Valid()
        invariant log == old(log) + EndCalls(endHandlers[..i])
        invariant stats.State() == EndEffect(old(stats.State()), endHandlers[..i], now)
      {
        var h := endHandlers[i];
        if h == FinishStatsCb {
          stats.SessionEnded(now);
        }
        log := log + [EndCalled(h)];
        assert endHandlers[..i + 1] == endHandlers[..i] + [h];
        i := i + 1;
      }
      assert endHandlers[..i] == endHandlers;
    }

    /** processRoundTrip: a Replied record adds its time to the statistics;
        timeouts and TTL expiries leave them as they are. Then every
        round-trip handler is called with the record, in registration order. */
    method ProcessRoundTrip(rt: RoundTrip)
      requires stats.Valid()
      modifies this`log, stats
      ensures stats.Valid()
      ensures rt.res == Replied ==> stats.State() == AfterReply(old(stats.State()), Wrap64(rt.time))
      ensures rt.res != Replied ==> stats.State() == old(stats.State())
      ensures log == old(log) + RoundTripCalls(rtHandlers, rt)
    {
      if rt.res == Replied {
        stats.EchoReplied(Wrap64(rt.time));
      }
      var i := 0;
      while i < |rtHandlers|
        modifies this`log
        invariant 0 <= i <= |rtHandlers|
        invariant log == old(log) + RoundTripCalls(rtHandlers[..i], rt)
      {
        log := log + [RoundTripCalled(rtHandlers[i], rt)];
        assert rtHandlers[..i + 1] == rtHandlers[..i] + [rtHandlers[i]];
        i := i + 1;
      }
      assert rtHandlers[..i] == rtHandlers;
    }
  }

  /** The record of a matched reply: the packet's TTL, length and sender, the
      reply's sequence number and the measured round-trip time. */
  function ReplyRecord(raw: RawPacket, rtt: int64): (rt: RoundTrip)
    ensures rt.res == Replied && rt.time == rtt
    ensures rt.ttl == raw.ttl && rt.length == raw.length && rt.src == raw.src
    ensures raw.content.Some? && raw.content.value.body.Echo? ==> rt.sequence == raw.content.value.body.sequence
  {
    var sequence := if raw.content.Some? && raw.content.value.body.Echo? then raw.content.value.body.sequence else 0;
    RoundTrip(raw.ttl, sequence, raw.length, raw.src, rtt, Replied)
  }

  /** The statistics after the start handlers ran: initStatsCb records the
      start time; user handlers leave the statistics alone. */
  function StartEffect(st: Snapshot, hs: seq<StartHandler>, now: int64): (r: Snapshot)
    ensures InitStatsCb in hs ==> r == st.(stTime := now, started := true)
    ensures InitStatsCb !in hs ==> r == st
  {
    if hs == [] then st
    else if hs[|hs| - 1] == InitStatsCb then st.(stTime := now, started := true)
    else
      assert InitStatsCb in hs <==> InitStatsCb in hs[..|hs| - 1];
      StartEffect(st, hs[..|hs| - 1], now)
  }

  /** The statistics after the end handlers ran: finishStatsCb records the
      end time; user handlers leave the statistics alone. */
  function EndEffect(st: Snapshot, hs: seq<EndHandler>, now: int64): (r: Snapshot)
    ensures FinishStatsCb in hs ==> r == st.(endTime := now, ended := true)
    ensures FinishStatsCb !in hs ==> r == st
  {
    if hs == [] then st
    else if hs[|hs| - 1] == FinishStatsCb then st.(endTime := now, ended := true)
    else
      assert FinishStatsCb in hs <==> FinishStatsCb in hs[..|hs| - 1];
      EndEffect(st, hs[..|hs| - 1], now)
  }

  /** Recording requests one at a time on a new session with a count limit:
      the limit is reached after exactly maxCount requests. */
  method RequestsUntilLimit(settings: Settings) returns (sent: nat)
    requires Validate(settings) && IsMaxCountActive(settings) && settings.maxCount < TWO_TO_THE_32
    ensures sent == settings.maxCount
  {
    var s := new Session(settings, 0, 0, true);
    var stats := s.stats;
    sent := 0;
    while !ReachedRequestLimit(settings, stats.State())
      invariant stats.Valid()
      invariant sent <= settings.maxCount
      invariant stats.totalSent == sent
      decreases settings.maxCount - sent
    {
      Wrap32InRange(sent + 1);
      stats.EchoRequested();
      sent := sent + 1;
    }
  }

  /** Running a new session twice: the first run enters the event loop with
      the start time recorded, the second is refused. */
  method RunTwice(settings: Settings, ip: seq<uint8>, id: int, bigID: uint64, now: int64)
    returns (first: Outcome, second: Outcome, startTime: (int64, bool))
    requires Validate(settings) && 0 <= id < TWO_TO_THE_16 - 1
    ensures first == Pass
    ensures second == Fail("This session has already started")
    ensures startTime == (now, true)
  {
    var s, err := Session.NewSession(settings, Some(ip), id, bigID);
    first := s.Run(now, Pass);
    second := s.Run(now, Pass);
    startTime := s.stats.GetStartTime();
  }

  /** Finishing a new session with one user end handler added: the built-in
      handler runs, then the user's; the end time is recorded, the session is
      finished and one finish request stays queued. A later stop request is
      ignored. */
  method FinishNewSession(settings: Settings, ip: seq<uint8>, id: int, bigID: uint64, now: int64)
    returns (events: seq<Event>, isFinished: bool, queued: seq<Outcome>, endTime: (int64, bool))
    requires Validate(settings) && 0 <= id < TWO_TO_THE_16 - 1
    ensures events == [EndCalled(FinishStatsCb), EndCalled(EndCb(1))]
    ensures isFinished && queued == [Pass]
    ensures endTime == (now, true)
  {
    var s, err := Session.NewSession(settings, Some(ip), id, bigID);
    s.AddEndHandler(EndCb(1));
    var r := s.HandleFinishRequest(Pass, now);
    s.RequestStop();
    events, isFinished, queued := s.log, s.isFinished, s.finishReqs;
    endTime := s.stats.GetEndTime();
  }

  /** Under DefaultSettings the deadline timer firing queues nothing, and the
      first request is armed with a 10 second timeout. */
  method DefaultSessionTimers(ip: seq<uint8>, id: int, bigID: uint64, now: int64)
    returns (queued: seq<Outcome>, timeout: Timer)
    requires 0 <= id < TWO_TO_THE_16 - 1
    ensures queued == []
    ensures timeout == Armed(10 * NANOS_PER_SECOND)
  {
    var s, err := Session.NewSession(DefaultSettings(), Some(ip), id, bigID);
    err := s.Run(now, Pass);
    s.HandleDeadlineTimer();
    queued, timeout := s.finishReqs, s.timeout;
  }
}
