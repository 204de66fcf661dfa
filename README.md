# pingo core, modelled in Dafny

pingo is a Go ping library and command-line tool. A `Session` sends ICMP echo
requests to one host and matches the echo replies to them. It measures
round-trip times, keeps per-session statistics, and calls user callbacks:
when the session starts, for every completed round trip, and when it ends.

This project models the decision logic of that core (`core/`). It covers:

- the statistics object (`Stats`);
- the reply table (`Replies`);
- the echo request a session sends, and the check a received message must pass to be its reply (`Icmp`);
- the session's life cycle and event handlers (`Sessions`);
- the value types and helpers they use (`RoundTrips`, `Config`, `IpUtils`, `ByteOrder`, `Ints`, `Wrappers`).

Go's fixed-width integers are subset types of `int`. Wrap-around is written out
explicitly: `Wrap32` and `Wrap64` for `uint32` and `uint64`, `WrapInt64` for a
conversion to `int64`, and `SaturateInt64` for `time.Time.Sub`.

Objects whose fields the code updates in place are classes: `Statistics`,
`ReplyMap`, the reply slot and `Session`. Their methods state their whole new
state.

`Statistics` is specified through a value view, `Snapshot`. Its invariant
`Consistent` ties the running maximum, minimum, sums and received count to the
list of recorded round-trip times. Every mutator is proved to keep it.

In `Session`, the timers are values: `Stopped` or `Armed(ns)`. A channel the
session sends on is a sequence of the values sent on it. Every callback
invocation is appended to an event log.

The clock, the random identifiers, name resolution and the outcomes of socket
operations are parameters, supplied by the caller.

The files of `core/` come from more than one revision of the library.
`icmp.go` keeps its own counters (`s.totalSent`, `s.totalReceived`, `s.rtts`,
`s.maxRtt`). `session.go` uses `s.Stats` with exported fields. The model keeps
one coherent state: every one of these counters is the session's
`Statistics` object, updated through `EchoRequested` and `EchoReplied`.
Where the tests expect behaviour the code does not have, the model follows the
code and the difference is listed under "## Findings".

## Model

| member | source | states |
|---|---|---|
| ByteOrder.Uint64ToBytes | core/icmp.go:29 | eight bytes whose big-endian value is the argument |
| ByteOrder.BytesToUint64 | core/icmp.go:149 | the uint64 whose eight-byte encoding is the first eight bytes |
| ByteOrder.DecodeEncode | core/icmp.go:29-31 | decoding an n-byte encoding returns every number below 256^n |
| ByteOrder.EncodeDecode | core/icmp.go:149-150 | re-encoding a decoded byte string at its own width returns the string |
| ByteOrder.Uint64RoundTrip | core/icmp.go:29-31 | reading back a written bigID recovers it |
| ByteOrder.BytesRoundTrip | core/icmp.go:149 | writing a read uint64 reproduces the eight bytes it came from |
| ByteOrder.UnixNanoToBytes | core/icmp.go:30 | eight bytes holding the two's complement pattern of the timestamp |
| ByteOrder.BytesToUnixNano | core/icmp.go:150 | the signed timestamp whose bit pattern is the first eight bytes |
| ByteOrder.UnixNanoRoundTrip | core/icmp.go:30-31 | reading back a written send time recovers it, negative times included |
| RoundTrips.Ordinal | core/roundtrip.go:11-18 | the iota values: Replied 0, TTLExpired 1, TimedOut 2 |
| RoundTrips.FromOrdinal | core/roundtrip.go:9-18 | exactly 0, 1 and 2 name a result, and each names the one with that ordinal |
| RoundTrips.OrdinalBijective | core/roundtrip.go:11-18 | the numbering is a bijection onto 0..2 |
| Config.DefaultSettings | core/settings.go:30-41 | the defaults are valid, leave count limit and deadline off (non-positive) and are unprivileged |
| Config.Validate | core/settings_test.go:15-104 | TTL, timeout and interval positive; an explicitly set count limit or deadline positive |
| Config.ValidationCases | core/settings_test.go:10-104 | for every value v: a non-positive TTL, timeout, interval, explicit count or explicit deadline is rejected, and a positive one of each is accepted |
| IpUtils.To4 | core/utils.go:5-7 | a 4-byte form exists exactly for 4-byte and IPv4-mapped 16-byte addresses, and it is their last four bytes |
| IpUtils.IsIPv4 | core/utils.go:5-7 | true exactly for 4-byte addresses and IPv4-mapped 16-byte addresses |
| IpUtils.IsIPv6 | core/utils.go:9-11 | true exactly for 16-byte addresses (its classification is FamilyClassification) |
| IpUtils.FamilyClassification | core/utils.go:5-11 | 4-byte addresses are IPv4 only; mapped ones are both; other 16-byte ones are IPv6 only; other lengths are neither |
| IpUtils.TestAddresses | core/utils_test.go:11-25 | 8.8.8.8 and ::ffff:192.168.0.1 are IPv4, 2606:4700::6811:af55 is not |
| Stats.Initial | core/statistics.go:207-221 | the state NewStatistics builds is consistent |
| Stats.ReplyKeepsConsistent | core/statistics.go:106-117 | recording a reply keeps count, extremes and both uint64 sums in step with the recorded times |
| Stats.ExtremesAfterReply | core/statistics.go:113-114 | after a reply, the running max and min are those of the extended list |
| Stats.SumsAfterAppend | core/statistics.go:115-116 | the wrapped running sum and sum of squares equal the wrapped totals of the extended list |
| Stats.SumAtLeastMin | core/statistics.go:191 | n times the minimum is at most the sum |
| Stats.SumAtMostMax | core/statistics.go:191 | the sum is at most n times the maximum |
| Stats.MeanBetweenExtremes | core/statistics.go:183-192 | the integer mean of a non-empty list lies between its minimum and maximum |
| Stats.PendingArithmetic | core/statistics.go:157-159 | three wrapping uint32 subtractions undo three additions, and equal the plain difference without underflow |
| Stats.Statistics.constructor | core/statistics.go:207-221 | every counter zero, no times, max 0, min MaxInt64, neither timestamp set |
| Stats.Statistics.SessionStarted | core/statistics.go:86-92 | records the start time and marks it set; nothing else changes |
| Stats.Statistics.SessionEnded | core/statistics.go:94-100 | records the end time and marks it set; nothing else changes |
| Stats.Statistics.EchoRequested | core/statistics.go:102-104 | one more request sent, modulo 2^32; nothing else changes |
| Stats.Statistics.EchoReplied | core/statistics.go:106-117 | the state becomes AfterReply and stays consistent |
| Stats.Statistics.EchoTimedOut | core/statistics.go:119-121 | one more timeout, modulo 2^32; nothing else changes |
| Stats.Statistics.EchoTTLExpired | core/statistics.go:123-125 | one more TTL expiry, modulo 2^32; nothing else changes |
| Stats.Statistics.GetStartTime | core/statistics.go:127-132 | the start time and whether it was set; SessionStarted makes it (now, true) |
| Stats.Statistics.GetEndTime | core/statistics.go:134-139 | the end time and whether it was set; SessionEnded makes it (now, true) |
| Stats.Statistics.GetTotalSent | core/statistics.go:141-143 | the number of requests sent, modulo 2^32 |
| Stats.Statistics.GetTotalRecv | core/statistics.go:145-147 | the number of replies, modulo 2^32 (the invariant Consistent ties it to the recorded times) |
| Stats.Statistics.GetTotalTimedOut | core/statistics.go:149-151 | the number of timed-out requests, modulo 2^32 |
| Stats.Statistics.GetTotalTTLExpired | core/statistics.go:153-155 | the number of requests whose TTL expired, modulo 2^32 |
| Stats.Statistics.GetTotalPending | core/statistics.go:157-159 | pending plus the three resolved counts is sent modulo 2^32; without underflow it is the plain difference |
| Stats.Statistics.GetPktLoss | core/statistics.go:161-167 | 0 before anything is sent; within [0, 1] when no more replies than requests; 1 with no replies, 0 with all |
| Stats.Statistics.GetRTTMax | core/statistics.go:169-174 | 0 before any reply, then a recorded time no recorded time exceeds |
| Stats.Statistics.GetRTTMin | core/statistics.go:176-181 | 0 before any reply, then a lower bound of all recorded times, at most the max, and itself recorded when it fits in an int64 |
| Stats.Statistics.GetRTTAvg | core/statistics.go:183-192 | 0 before any reply, then the wrapped sum divided by the number of replies |
| Stats.AverageWithinExtremes | core/statistics.go:169-192 | once a reply is recorded and the sum has not wrapped: min <= avg <= max |
| Replies.Slot.constructor | core/replymap.go:29 | an empty slot with capacity one |
| Replies.ReplyMap.constructor | core/replymap.go:17-22 | no keys |
| Replies.ReplyMap.Get | core/replymap.go:24-32 | a present key returns its slot and changes nothing; an absent key returns nil and stores a fresh empty slot under that key, and nothing else changes |
| Replies.ReplyMap.GetOrCreate | core/replymap.go:24-32 | afterwards the key is present and the returned slot is the stored one; an existing slot is reused |
| Replies.ReplyMap.Erase | core/replymap.go:34-41 | the key is removed and every other entry kept; an absent key changes nothing |
| Replies.FirstGetReturnsNil | core/replymap.go:24-32 | on a new table the first Get of a key returns nil and the second does not |
| Replies.GetOrCreateTwiceSameSlot | core/replymap.go:24-32 | two lookups of one key hand out the same empty slot |
| Replies.EraseIdempotent | core/replymap.go:34-41 | erasing twice equals erasing once; the key is gone and other keys stay |
| Icmp.GetICMPType | core/icmp.go:177-183 | an echo request type, of the IPv4 family exactly when the session is IPv4 |
| Icmp.GetProtocol | core/icmp.go:201-207 | 1 for IPv4, 58 otherwise |
| Icmp.GetNetwork | core/icmp.go:186-198 | one of the four network constants: a privileged one ("ip…") exactly when privileged, an IPv4 one exactly when IPv4 |
| Icmp.NetworksDistinct | core/icmp.go:186-198 | the four family/privilege combinations get four different networks |
| Icmp.EchoPayload | core/icmp.go:29-31 | 16 bytes, from which the bigID and the send time read back exactly |
| Icmp.BuildEchoRequest | core/icmp.go:29-43 | family request type, code 0, session id, sequence lastSequence+1, a 16-byte payload carrying bigID and send time |
| Icmp.PeerReply | core/icmp.go:33-37 | the reply a host returns: reply type of the same family, same data, id and sequence as 16-bit wire values |
| Icmp.ClassifyReply | core/icmp.go:120-174 | parse failure gives a parse error and vice versa; non-replies are ignored; a non-echo body is an error; short data is an error; a well-formed echo reply is matched exactly when it has the last sequence and the own bigID, and is otherwise ignored without error; a match's RTT is the time since sending |
| Icmp.IdentifierNeverChecked | core/icmp.go:137-142 | as written, privilege never changes the verdict |
| Icmp.OwnReplyMatched | core/icmp.go:120-174 | the reply to the session's own latest request is matched with RTT now minus send time, while the sequence is below 2^16 |
| Icmp.ForeignReplyIgnored | core/icmp.go:157-160 | a reply carrying another session's bigID is never matched |
| Icmp.WrongIdAcceptedWhenPrivileged | core/icmp.go:139 | as written, a privileged session matches a reply with a foreign identifier |
| Icmp.ReplyAfterWrapIgnored | core/icmp.go:153 | as written, the reply to request 65536 (wire sequence 0) is ignored |
| Icmp.ClassifyReplyIntended | core/icmp.go:137-160 | a well-formed echo reply is matched exactly when (under privilege) its id is the session id, its sequence is lastSequence modulo 2^16 and its bigID is the session's, and is otherwise ignored; every match is a ClassifyReply match on the 16-bit sequence |
| Icmp.IntendedRejectsForeignId | core/icmp.go:137-142 | the intended check ignores a privileged reply with a foreign identifier |
| Icmp.IntendedMatchesOwnReply | core/icmp.go:153-155 | the intended check matches the reply to the latest request for every sequence number, past 2^16 too |
| Sessions.StartCalls | core/session.go:151-153 | one start invocation per handler, in order, all with the sample request |
| Sessions.RoundTripCalls | core/session.go:433-435 | one round-trip invocation per handler, in order, all with the record |
| Sessions.EndCalls | core/session.go:362-364 | one end invocation per handler, in order |
| Sessions.DeadlineDuration | core/session.go:373-375 | Deadline seconds in nanoseconds, whenever that fits in an int64 |
| Sessions.IntervalDuration | core/session.go:378-380 | Interval seconds in nanoseconds, whenever that fits in an int64 |
| Sessions.IsDeadlineActive | core/session.go:395-397 | a deadline is configured exactly when it is positive (off under the defaults, DefaultsDisableLimits) |
| Sessions.IsMaxCountActive | core/session.go:400-402 | a count limit is configured exactly when it is positive (off under the defaults, DefaultsDisableLimits) |
| Sessions.ReachedRequestLimit | core/session.go:405-408 | a count limit is active and at least that many requests were sent (RequestLimitCountsRequests) |
| Sessions.TimeoutDuration | core/session.go:383-392 | twice the longest recorded RTT once there is a reply, otherwise the configured timeout in nanoseconds, when these fit in an int64 |
| Sessions.BuildTimedOutRT | core/session.go:411-420 | a TimedOut record for the last sequence, with no TTL, length or source, timed at the current timeout |
| Sessions.DefaultsDisableLimits | core/session.go:395-408 | under the defaults no deadline or count limit is active and the first timeout is 10 s |
| Sessions.RequestLimitCountsRequests | core/session.go:405-408 | with an explicit count, after one more request the limit is reached exactly when the new count is at least maxCount, and a reached limit stays reached |
| Sessions.ReplyRecord | core/session.go:320-339 | a Replied record with the packet's TTL, length and sender, the reply's sequence and the measured RTT |
| Sessions.StartEffect | core/statistics.go:224-226 | the start handlers record the start time exactly when initStatsCb is among them |
| Sessions.EndEffect | core/statistics.go:229-231 | the end handlers record the end time exactly when finishStatsCb is among them |
| Sessions.Session.constructor | core/session.go:109-126 | fresh statistics, sequence 0, nothing registered, queued or started |
| Sessions.Session.NewSession | core/session.go:70-132 | invalid settings and unresolvable addresses are errors; otherwise a new session with initStatsCb and finishStatsCb registered, family from the address |
| Sessions.Session.AddRtHandler | core/session.go:224-226 | appends the handler |
| Sessions.Session.AddStHandler | core/session.go:229-231 | appends the handler |
| Sessions.Session.AddEndHandler | core/session.go:234-236 | appends the handler |
| Sessions.Session.Run | core/session.go:135-161 | a finished or started session is refused and unchanged; otherwise started, start handlers called, then the connection error or the timers armed |
| Sessions.Session.Start | core/session.go:143-153 | marked started; every start handler called once in order; start time recorded |
| Sessions.Session.InitTimers | core/session.go:239-253 | deadline, current timeout, and interval 0 |
| Sessions.Session.RunStartHandlers | core/session.go:151-153 | each start handler runs once in order, with its effect on the statistics |
| Sessions.Session.RequestStop | core/session.go:194-201 | a finished session queues nothing; otherwise one finish request is queued |
| Sessions.Session.HandleDeadlineTimer | core/session.go:257-268 | a finish request is queued exactly when a deadline is configured |
| Sessions.Session.HandleTimeoutTimer | core/session.go:272-290 | round-trip handlers get the timed-out record and the statistics are unchanged; at the count limit finish is queued, otherwise the interval timer is re-armed |
| Sessions.Session.HandleIntervalTimer | core/session.go:293-312 | sends the next request; on success the timeout is armed and the sequence advances; on failure the interval is re-armed and the timeout stopped |
| Sessions.Session.RequestEcho | core/icmp.go:27-65 | a marshalling error changes nothing; otherwise sent count and sequence advance whether or not the write fails, and the write's error is returned |
| Sessions.Session.CheckRawPacket | core/icmp.go:120-174 | as written: the ClassifyReply verdict, a match recorded as one more reply |
| Sessions.Session.HandleRawPacket | core/session.go:315-348 | an error or non-match changes nothing; a match stops the timeout, re-arms the interval, records the reply, notifies handlers and queues finish at the count limit |
| Sessions.Session.HandleFinishRequest | core/session.go:351-370 | an error is returned and nothing changes; otherwise the request is forwarded, end handlers run in order, true is sent on finished, and the session is finished |
| Sessions.Session.RunEndHandlers | core/session.go:362-364 | each end handler runs once in order, with its effect on the statistics |
| Sessions.Session.ProcessRoundTrip | core/session.go:423-436 | a Replied record is added to the statistics, other results leave them alone; every round-trip handler is called with it |
| Sessions.RequestsUntilLimit | core/session_test.go:327-376 | with a count limit, the limit is reached after exactly maxCount requests |
| Sessions.RunTwice | core/session.go:139-141 | a session runs once; the second Run is refused, and the start time is recorded |
| Sessions.FinishNewSession | core/session_test.go:210-228 | finishing calls finishStatsCb then the user's handler, records the end time and finishes the session; a later stop is ignored |
| Sessions.DefaultSessionTimers | core/session_test.go:134-160 | under the defaults the deadline timer queues nothing and the first timeout is 10 s |

## Left out

- The event loop in `Run` (`select` over timers, packets and finish requests), `pollConnection` / `pollICMP`, `readFrom`, goroutines, `sync.WaitGroup` and the `defer` clean-ups (closing `finishReqs`, stopping timers): every handler is modelled as one sequential step, and which step comes next is the caller's choice.
- Sockets, DNS resolution and `GetConnection` / `getConnection`: their outcomes are parameters (`resolved`, `connection`, `marshal`, `write`).
- `icmp.Message.Marshal`, `icmp.ParseMessage` and checksums belong to golang.org/x/net. Messages are abstract values, and a packet carries its already-parsed content.
- `HandleRawPacket` decides matches with `ClassifyReplyIntended` and builds the record with `ReplyRecord`, in place of `preProcessRawPacket`.
- `preProcessRawPacket` is not part of this model. The tests show it turning time-exceeded replies into `TTLExpired` records. `ClassifyReply` ignores every type other than an echo reply, so the model never produces a `TTLExpired` record. `EchoTTLExpired` is modelled but never called.
- `GetRTTMDev` uses `math.Sqrt` on `float64`, and `getIntervalDuration` multiplies by a `float64` interval; neither is modelled. `IntervalDuration` multiplies integer seconds, as `settings.go` declares `Interval` an `int`.
- Stats.Statistics.GetPktLoss: an exact rational, not IEEE `float64` rounding.
- `Flood`, fractional intervals and the upper interval bound appear only in tests from another revision of the settings (`core/settings_test.go:105-157`). `Config.Validate` covers only the TTL, timeout, interval, count and deadline rules.
- Sessions.Session.ProcessRoundTrip: a negative RTT (the wall clock stepped back between send and receipt) is stored as its uint64 bit pattern, as statistics.go's `EchoReplied(rtt uint64)` would receive it. `session.go` keeps `RTTs` and `RTTsMax` as int64, so there a negative RTT never raises the maximum, while here it can, and the next timeout is then computed from that wrapped maximum.
- Sessions.Session.CheckRawPacket: a negative RTT is stored as its uint64 bit pattern, as for ProcessRoundTrip; `icmp.go` keeps `s.rtts` and `s.maxRtt` as int64.
- Sessions.Session.HandleRawPacket: a duplicated echo reply matches again and is counted again, as in `icmp.go:153-170`, so received can exceed sent and the loss can be negative. Keeping one reply per sequence number would need state that no file of this model has.
- Sessions.Session.ProcessRoundTrip: `session.go` updates only `RTTs`, `RTTsMax` and `TotalRecv`. The model records the reply through `EchoReplied`, which also updates the minimum and the sums.
- Mutexes and atomics (`rttsMutex`, `timeMutex`, the reply map's `RWMutex`) are not modelled. This includes `replyMap.Get` inserting while it holds only the read lock. Every call is atomic in the model.
- Logging, `IsStarted`, `IsFinished`, `Address`, `CNAME`, `bundle.go` and the command-line front end are not modelled.
- Error messages of `checkRawPacket` are the `CheckError` values `ParseError`, `InvalidBody` and `MissingData(length)`, not formatted strings.
- Sessions.Session.NewSession: the identifier and bigID are random draws, passed in as parameters. The address family comes from the already-resolved address.
- Sessions.TimeoutDuration: the contract covers only durations that fit in an int64. Larger ones wrap as Go's conversion does, and the contract says nothing about them.
- `sendEchoRequest` is taken to be `requestEcho`; `HandleIntervalTimer` calls `RequestEcho`.

## Findings

| source | as written | input that shows it | evidently intended | confidence | as-written member | corrected member |
|---|---|---|---|---|---|---|
| core/icmp.go:139 | the identifier check compares `body.ID` with itself, so it never rejects | privileged session with id 7 receives a reply with id 8, its own bigID and sequence 1 | a privileged session ignores replies whose identifier is not its id | high, not executed | Icmp.WrongIdAcceptedWhenPrivileged | Icmp.IntendedRejectsForeignId |
| core/icmp.go:153 | the 16-bit reply sequence is compared with the unbounded `lastSequence` | after 65535 requests, the reply to request 65536 carries sequence 0 and `lastSequence` is 65536 | compare modulo 2^16, so replies keep matching after the wrap | high, not executed | Icmp.ReplyAfterWrapIgnored | Icmp.IntendedMatchesOwnReply |
| core/replymap.go:27-31 | `Get` returns the result of the lookup made before it inserts, so the first `Get` of a key returns nil while a slot is stored | `Get(k)` on a new table | return the slot stored under the key, created if absent | medium, not executed | Replies.FirstGetReturnsNil | Replies.GetOrCreateTwiceSameSlot |
