# Verified models of the SRT benchmark and interoperability machinery

The repository ships an SRT transport together with the programs that measure it, drive it against other
implementations and judge the evidence. This project models that machinery in Dafny and proves what it guarantees in
every run: schedulers, bounded queues, trace checkers, concurrent observers, interruption handling and the change
classifier. Clocks, sockets, peer processes, signals and the other thread are environment steps that may fall between
any two statements; every claim holds for all of them.

Each module is one component.

| file | component |
|---|---|
| `GroupPhase.dfy` | two-phase group sender and receiver, and the controller's copy accounting |
| `RoundRobin.dfy`, `Pacer.dfy`, `Payload.dfy`, `ReceiverIdentity.dfy`, `Transport.dfy` | many-socket peer: scheduler, pacing, payload codec, identity tracking, and the transport below them |
| `RetransmissionTrace.dfy`, `ReceiveEvidence.dfy`, `DropMapping.dfy` | trace checkers |
| `Monitor.dfy`, `PeerDiagnostics.dfy`, `CapacityOperator.dfy`, `GatedQualification.dfy`, `QualificationGate.dfy` | process monitor, lock-free diagnostics, outer operator, gated A/B run and its gate |
| `Distribution.dfy` | percentiles and completion-time distributions |
| `ChangeClassifier.dfy` | path classifier for continuous integration |
| `FileMismatch.dfy`, `GroupTiming.dfy`, `TailLossRelay.dfy` | byte comparison, failover timing sender, tail-loss relay |
| `Common.dfy` | shared definitions |

`dafny verify dfyconfig.toml` checks everything.

## Properties that do not hold as one would expect

Five expectations fail for some input. The code is modelled as it is, with the exact condition.

- The receiver's closing check "not every logical connection" is unreachable if and only if connections x messages
  stays below 2^64, because the expected count is a wrapping product (`ReceiverIdentity.ClosingCheckUnreachableIff`,
  `ReceiverIdentity.WrappedExample`).
- The process monitor returns the exit time instead of the completion time exactly when the completion was observed at
  clock reading zero and the exit came later, since zero is false in Python (`Monitor.ReportedIff`,
  `Monitor.ZeroReadingExample`).
- The operator sends the runner a value other than the first signal exactly when the wait fails with the runner alive
  and the first signal was not an interrupt (`CapacityOperator.Operate`, `CapacityOperator.OtherValueRun`).
- All three gates can pass without the report saying qualified: exactly when the signal arrives between the verdict of
  the last gate and the report of it (`GatedQualification.RunBlocks`, `GatedQualification.MissedQualification`).
- A stage can qualify with either variant as the candidate: exactly when every ratio lies in a two-sided band, one
  profile's rate is up by the improvement factor and another's down by it (`QualificationGate.BothWaysIff`,
  `QualificationGate.BothWaysExample`).

## Model

| member | source | states |
|---|---|---|
| GroupPhase.Group.Progress | benchmarks/group_throughput_peer.cpp:292-294 | Environment: each member transmits and retires any further FIFO prefix; counters only grow, no buffer exceeds 64 |
| GroupPhase.Group.Pending | benchmarks/group_throughput_peer.cpp:93-104 | Members are asked one after another while they progress; the answer is at least every buffer at the end, so a maximum below 64 leaves that much room on every member at once, and at most some buffer at the start |
| GroupPhase.Group.AwaitBudget | benchmarks/group_throughput_peer.cpp:237-245 | A budget of at most 32 that fits the window of every member and is no less than what the fullest buffer left free at the start, or none when the deadline passed with a full buffer |
| GroupPhase.Group.PayloadPending | benchmarks/group_throughput_peer.cpp:285-296 | A negative answer holds for all members together at the end of the scan, a positive one for some member at its start: a buffer is longer than the continuations queued on it |
| GroupPhase.Group.UniqueSent | benchmarks/group_throughput_peer.cpp:105-113 | Each counter lies between the member's transmissions before and after the scan |
| GroupPhase.Group.SendMessage | benchmarks/group_throughput_peer.cpp:202-212 | Environment: an accepted message is queued on at least one member, and the outcomes tell on which |
| GroupPhase.Group.Send | benchmarks/group_throughput_peer.cpp:196-232 | A successful send appends the word exactly where the outcomes say, and the copy counts are the old ones plus those outcomes; broadcast reached everyone; a failure is a refused send or a broadcast that missed a member |
| GroupPhase.Group.StopRequested | benchmarks/group_throughput_peer.cpp:168-179 | Environment: the controller may ask to stop at any poll |
| GroupPhase.CountCopies | benchmarks/group_throughput_peer.cpp:213-228 | Fails exactly when a broadcast missed a member, otherwise counts one copy per member that queued the message |
| GroupPhase.PayloadStep | benchmarks/group_throughput_peer.cpp:246-247 | One more payload keeps every member's log: increasing payload indices after what was there before |
| GroupPhase.ContinuationStep | benchmarks/group_throughput_peer.cpp:303-304 | One more continuation keeps every member's log: payload prefix, then continuations |
| GroupPhase.SendOne | benchmarks/group_throughput_peer.cpp:246-247 | One payload inside the window: log extended, window still respected |
| GroupPhase.SendNext | benchmarks/group_throughput_peer.cpp:234-247 | One turn of the payload loop: the phase timeout exactly at the deadline, the window timeout only late with a full buffer |
| GroupPhase.SendPayload | benchmarks/group_throughput_peer.cpp:233-279 | On success every index first..first+count was sent once in order, each member log is an increasing subsequence of them, and broadcast copies are complete; every failure has its reason and leaves an exact prefix sent |
| GroupPhase.SendContinuation | benchmarks/group_throughput_peer.cpp:300-305 | One continuation inside the window |
| GroupPhase.ContinueNext | benchmarks/group_throughput_peer.cpp:282-306 | One turn of the continuation loop: the timeout exactly at the deadline, the end exactly on a stop request with no buffer longer than its continuations, otherwise one continuation unless a buffer was full |
| GroupPhase.SendContinuations | benchmarks/group_throughput_peer.cpp:280-308 | On success a stop was requested, at most 4096 continuations were sent and no buffer is longer than its own continuations; the budget failure comes only after 4096 of them |
| GroupPhase.Phase | benchmarks/group_throughput_peer.cpp:180-322 | For every interleaving of sends and retirements: when a phase ends, all its payload has left every member's buffer and only this phase's continuations remain; buffers never exceed 64; it aborts only late, exhausted, on a refused send or on an incomplete broadcast |
| GroupPhase.CountedPhase | benchmarks/group_throughput_peer.cpp:404-423 | The counters read after a phase lie between what was retired at its end and what was queued |
| GroupPhase.DeltasAccounted | benchmarks/group_throughput.py:165-173 | Two finished phases imply payload <= unique-sent delta <= payload + continuation + previous continuation for every member |
| GroupPhase.ValidateAccounting | benchmarks/group_throughput.py:165-175 | The controller's loop accepts exactly the accounting rule stated over all members |
| GroupPhase.StreamOfBoth | benchmarks/group_throughput_peer.cpp:404-432 | The group's send order over both phases |
| GroupPhase.Run | benchmarks/group_throughput_peer.cpp:404-432 | A run that completes both phases is never rejected by the controller's accounting check; one that does not has a timeout, an exhausted budget, a refused send or an incomplete broadcast to show |
| GroupPhase.ReceivePhase | benchmarks/group_throughput_peer.cpp:248-279 | How a receiving phase ends, faults included, is tied to every message taken before and to the one it is about |
| GroupPhase.ReceiptUnique | benchmarks/group_throughput_peer.cpp:248-279 | The stream and its faults determine how a receiving phase ends |
| GroupPhase.InOrderReceived | benchmarks/group_throughput_peer.cpp:264-269 | Under in-order delivery a phase ends in a fault or receives exactly the previous continuations and then its payload |
| GroupPhase.ReceiveRun | benchmarks/group_throughput_peer.cpp:264-269 | Under in-order delivery and any faults the budget, order and length checks never fire; without a fault the measured receiver sees exactly the warm-up's continuations |
| Pacer.OffsetIsProduct | benchmarks/scalability_peer.cpp:733-737 | The offset of message k is k packet periods |
| Pacer.Spacing | benchmarks/scalability_peer.cpp:738-739 | Relative to their origins, two messages are due exactly their distance times the period apart |
| Pacer.BurstBound | benchmarks/scalability_peer.cpp:740-759 | Messages j..k take at least (k-j+1) periods minus the burst credit, measured from j's pacing check, however much debt was forgiven |
| Pacer.WindowBound | benchmarks/scalability_peer.cpp:740-765 | The same bound between two enqueue times, with one more period of credit |
| Pacer.ExactSlots | benchmarks/scalability_peer.cpp:738-765 | Every message is due at its origin plus k periods; without a burst setting it never leaves before start + k periods |
| Pacer.CountSpan | benchmarks/scalability_peer.cpp:796-805 | The messages of one millisecond bucket are consecutive |
| Pacer.BucketBound | benchmarks/scalability_peer.cpp:796-805 | A bucket's packets need less than one millisecond plus the burst credit |
| Pacer.MaximumBound | benchmarks/scalability_peer.cpp:804-805 | The reported bucket maximum obeys the same bound |
| Pacer.BucketStep | benchmarks/scalability_peer.cpp:791-806 | The streaming bucket counter and maximum stay equal to the counts over the whole history |
| Pacer.ProgressedNext | benchmarks/scalability_peer.cpp:732-766 | One paced message keeps the history paced and the origin equal to start plus forgiven time |
| Pacer.PacingState.Check | benchmarks/scalability_peer.cpp:738-759 | Forgiving moves the origin forward by exactly the forgiven time, and only to the credit limit |
| Pacer.PacingState.Accepted | benchmarks/scalability_peer.cpp:791-812 | An accepted message is appended with its due time and counted; the origin does not move |
| Pacer.PacingState.CountBucket | benchmarks/scalability_peer.cpp:791-806 | The bucket fields describe the extended history |
| Pacer.Attempt | benchmarks/scalability_peer.cpp:732-766 | The next message is refused exactly when it is due at the deadline or later; otherwise the sender wakes when it is due and its check respects the credit; the origin never moves back |
| Transport.Sockets.Query | benchmarks/scalability_peer.cpp:709-719 | Environment: a query may fail, and acknowledgements only shrink a buffer |
| Transport.Sockets.Send | benchmarks/scalability_peer.cpp:770-790 | Environment: a message is queued, pushed back or refused |
| Transport.Sockets.Receive | benchmarks/scalability_peer.cpp:1004-1021 | Environment: any bytes, nothing or an error |
| Transport.Sockets.Poll | benchmarks/scalability_peer.cpp:679-698 | Environment: readiness wakes any sockets and stops none |
| RoundRobin.BoundedBypass | benchmarks/scalability_peer.cpp:701-706 | Between two visits to a socket every other socket is visited exactly once, even across rounds cut short |
| RoundRobin.BypassedMessages | benchmarks/scalability_peer.cpp:725-731 | Between two visits the other sockets enqueue at most 64 messages each |
| RoundRobin.BurstsAddUp | benchmarks/scalability_peer.cpp:725-731 | Any stretch of visits enqueues at most 64 messages per visit |
| RoundRobin.CarriesBurst | benchmarks/scalability_peer.cpp:767-772 | A burst keeps every socket's packets the messages 0, 1, 2, ... of its own connection |
| RoundRobin.Burst | benchmarks/scalability_peer.cpp:725-813 | A burst sends the next messages of the socket's own connection, respects the burst, window, round and message limits, and stops at one of them, on push-back, on a failed call or when the pacing is too late |
| RoundRobin.VisitNext | benchmarks/scalability_peer.cpp:702-830 | One visit extends the cyclic trace by the cursor's socket and exactly the messages it enqueued, also when it fails half way |
| RoundRobin.Round | benchmarks/scalability_peer.cpp:699-830 | A round visits each socket at most once and enqueues at most 128 messages however it ends; unless it fails it visits every socket or reaches exactly 128 messages |
| RoundRobin.RoundsUnique | benchmarks/scalability_peer.cpp:699-706 | A trace has only one cut into full rounds, so the cut of a run is where the program began its rounds |
| RoundRobin.RunSender | benchmarks/scalability_peer.cpp:668-847 | Whole run, paced or not: every socket has carried messages 0, 1, 2, ... of its own connection, visits are cyclic, windows respected, rounds all full except a last one that failed; a failure names the call that failed, a timeout or a message due too late; finishing means every socket sent everything while the 64-bit total does not wrap |
| RoundRobin.SendOne | benchmarks/scalability_peer.cpp:732-786 | One send call, paced if the transfer is, puts the message on its socket and in the pacing history, and is late exactly by the pacing |
| RoundRobin.SendBurst | benchmarks/scalability_peer.cpp:725-829 | A burst and what it leaves of the socket's flags: completed exactly with the last message, passed over only when complete or pushed back; send, rate and removal failures name their call |
| RoundRobin.Serve | benchmarks/scalability_peer.cpp:707-829 | A socket is served only if runnable, and stays runnable only if it reached its last message, the burst, the round or the window |
| RoundRobin.Wake | benchmarks/scalability_peer.cpp:679-698 | Epoll is waited for only when no socket is runnable |
| RoundRobin.PacedBypass | benchmarks/scalability_peer.cpp:699-830 | Between two visits the other sockets enqueue at most 64 messages each, and these take no less than their own time minus the burst credit |
| RoundRobin.RunPaced | benchmarks/scalability_peer.cpp:668-847 | On one paced run the round cut, the bypass bound, the burst bound and the bound on the bucket maximum hold together; every message was due before the deadline, and the rate failure means that the next one is not |
| RoundRobin.VisitKeepsValid | benchmarks/scalability_peer.cpp:807-822 | Progress, window, completion flags and total stay consistent after a visit |
| RoundRobin.DoneMeansDone | benchmarks/scalability_peer.cpp:654-656 | Without wrap-around the loop condition is equivalent to every socket being complete |
| Payload.LoadAfterStore | benchmarks/scalability_peer.cpp:417-445 | Loading a stored value gives it back, for every width |
| Payload.StoreAfterLoad | benchmarks/scalability_peer.cpp:417-445 | Storing a loaded value gives the bytes back |
| Payload.StoreU64 | benchmarks/scalability_peer.cpp:417-423 | The loop writes the big-endian bytes |
| Payload.LoadU64 | benchmarks/scalability_peer.cpp:436-445 | The loop reads the big-endian value |
| Payload.LoadU32IsBigEndian | benchmarks/scalability_peer.cpp:425-434 | The shift expression is the big-endian value |
| Payload.ByteAt | benchmarks/scalability_peer.cpp:417-423 | Byte i of a stored value is the corresponding digit in base 256 |
| Payload.ValidateBody | benchmarks/scalability_peer.cpp:465-479 | The check accepts exactly the prepared marker and pattern |
| Payload.DecodePrepared | benchmarks/scalability_peer.cpp:447-479 | A payload is the prepared one for (connection, message) exactly when it validates and decodes to that pair |
| ReceiverIdentity.StartedValid | benchmarks/scalability_peer.cpp:938-953 | The initial tracker is consistent |
| ReceiverIdentity.ClaimKeepsIdentified | benchmarks/scalability_peer.cpp:1040-1046 | A first claim keeps assigned ids distinct and claimed ids equal to the assigned ones |
| ReceiverIdentity.AcceptKeepsValid | benchmarks/scalability_peer.cpp:1027-1053 | Accepting a message keeps total progress equal to received messages, ids distinct and claims exact |
| ReceiverIdentity.ReplayValid | benchmarks/scalability_peer.cpp:958-1077 | Every reachable state is consistent |
| ReceiverIdentity.InOrder | benchmarks/scalability_peer.cpp:1029-1051 | Each socket has received messages 0, 1, 2, ... of one and the same connection |
| ReceiverIdentity.DistinctCovers | benchmarks/scalability_peer.cpp:1079-1084 | Pigeonhole: as many distinct ids as sockets cover all ids |
| ReceiverIdentity.EndIsPermutation | benchmarks/scalability_peer.cpp:1079-1084 | At the end of the loop the id map is a permutation and every id is claimed, while the total does not wrap |
| ReceiverIdentity.CompleteIsPermutation | benchmarks/scalability_peer.cpp:1079-1084 | Complete sockets make the id map a permutation |
| ReceiverIdentity.ClosingCheckUnreachableIff | benchmarks/scalability_peer.cpp:949-1084 | The closing failure is unreachable if and only if sockets x messages is below 2^64 |
| ReceiverIdentity.WrappedExample | benchmarks/scalability_peer.cpp:949-951 | Two sockets of 2^63 messages: the loop ends at once with nothing claimed |
| ReceiverIdentity.SilentSocket | benchmarks/scalability_peer.cpp:958-1077 | Any total below the others' capacity is reachable while one socket stays silent |
| ReceiverIdentity.WhyRejected | benchmarks/scalability_peer.cpp:1029-1051 | A message is refused as out of order, as a connection another socket carries, or as another one than before, exactly when it is that |
| ReceiverIdentity.Decode | benchmarks/scalability_peer.cpp:1022-1028 | Bytes are read exactly when some connection and message prepare them, and as those |
| ReceiverIdentity.Judge | benchmarks/scalability_peer.cpp:1022-1055 | What arrived is accepted as the message it was prepared for, or refused for what is wrong with it |
| ReceiverIdentity.ReceiveOne | benchmarks/scalability_peer.cpp:1003-1055 | One receive call: a prepared message that fits extends the run, anything else leaves the tracker unchanged and is reported as what it is |
| ReceiverIdentity.Burst | benchmarks/scalability_peer.cpp:999-1056 | A burst respects the burst and round limits, counts exactly what it received and moves no other socket |
| ReceiverIdentity.Serve | benchmarks/scalability_peer.cpp:996-1072 | A runnable socket is read until it is empty, complete or at a limit; it is completed exactly with its last message, and passed over only when complete or empty |
| ReceiverIdentity.Wake | benchmarks/scalability_peer.cpp:969-988 | Epoll is waited for only when no socket is runnable |
| ReceiverIdentity.Close | benchmarks/scalability_peer.cpp:1079-1084 | The closing check fails exactly when a connection is unclaimed, which needs a wrapped total |
| ReceiverIdentity.Round | benchmarks/scalability_peer.cpp:989-1073 | A round visits the sockets cyclically, receives at most 128 messages, and is full unless it fails |
| ReceiverIdentity.RunReceiver | benchmarks/scalability_peer.cpp:938-1084 | Whole run, for any bytes: the messages accepted are exactly those delivered, in order; a failure is the transport's, a timeout or the last delivery's; visits come in full cyclic rounds; finishing gives the permutation, and the closing failure needs a wrapped total |
| ReceiverIdentity.FaithfulAccepted | benchmarks/scalability_peer.cpp:1027-1053 | Sockets that deliver 0, 1, 2, ... of different connections are never rejected, however they interleave |
| ReceiverIdentity.AcceptedIff | benchmarks/scalability_peer.cpp:1027-1053 | A run is accepted to its end exactly when it is faithful to some assignment of connections |
| ReceiverIdentity.SenderAccepted | benchmarks/scalability_peer.cpp:767-772 | Whatever the sender's loop has put on its sockets is accepted in any interleaving and for any assignment of connections to accepted sockets |
| ReceiverIdentity.PreparedOnce | benchmarks/scalability_peer.cpp:447-463 | No two messages are prepared alike |
| ReceiverIdentity.Transfer | benchmarks/scalability_peer.cpp:1022-1028 | A prepared payload validates and decodes to its connection and number |
| ReceiverIdentity.ExchangeOne | benchmarks/scalability_peer.cpp:1022-1055 | The next message of a socket's connection is accepted |
| ReceiverIdentity.Exchange | benchmarks/scalability_peer.cpp:958-1077 | For every permutation of connections and every interleaving, no payload the sender prepares is rejected; every turn of a socket delivers one message until it has all of them, and when all sockets had their turns the connections received are a permutation |
| DropMapping.IndexSubmissions | benchmarks/analyze_sender_drop_trace.py:50-51 | The dictionary maps each sequence to its last submission |
| DropMapping.LookupDecides | benchmarks/analyze_sender_drop_trace.py:54-58 | The lookup decides whether a drop has a strictly earlier submission with positive time |
| DropMapping.IndexDrops | benchmarks/analyze_sender_drop_trace.py:51-53 | The dictionary has as many entries as drops exactly when the drops are distinct |
| DropMapping.CheckDrops | benchmarks/analyze_sender_drop_trace.py:54-62 | Accepts exactly drops with a prior submission and consistent age and cutoff, and names the first fault otherwise |
| DropMapping.SequenceInjective | benchmarks/analyze_sender_drop_trace.py:73-74 | Offsets below 2^31 give different circular sequence numbers |
| DropMapping.PrefixSize | benchmarks/analyze_sender_drop_trace.py:73-81 | n steps of a range cover n sequence numbers |
| DropMapping.RangeIsPrefix | benchmarks/analyze_sender_drop_trace.py:69-74 | Counting on from the first sequence number modulo 2^31 runs exactly through the circular range from first to last, which has that many members |
| DropMapping.RangeWithin | benchmarks/analyze_sender_drop_trace.py:69-71 | An exact counter's range is never longer than the drops |
| DropMapping.WalkOne | benchmarks/analyze_sender_drop_trace.py:74-82 | One packet continues the walk or is the one the verdict is about |
| DropMapping.Walk | benchmarks/analyze_sender_drop_trace.py:72-82 | The walk succeeds over the whole range or stops at its first packet that is missing, taken or from another poll |
| DropMapping.MatchCounter | benchmarks/analyze_sender_drop_trace.py:65-84 | One counter is accepted exactly when its range, poll, order and bytes match and it overlaps nothing matched before; the verdict names what is wrong otherwise |
| DropMapping.CheckCounters | benchmarks/analyze_sender_drop_trace.py:63-86 | All counters together are accepted exactly when they cover every removal once; the verdict is that of the first bad counter otherwise |
| DropMapping.PartitionByUnion | benchmarks/analyze_sender_drop_trace.py:65-86 | Step-wise disjointness and final coverage are the same as a partition of the dropped sequences |
| DropMapping.Validate | benchmarks/analyze_sender_drop_trace.py:48-86 | Accepts exactly the traces satisfying the declarative mapping, in at most one inner step more than there are drops, and otherwise reports the first fault in the order of the checks |
| DropMapping.PacketSumIsUnion | benchmarks/analyze_sender_drop_trace.py:140-141 | The packet deltas of exact disjoint counters add up to the size of their union |
| DropMapping.PacketSumRedundant | benchmarks/analyze_sender_drop_trace.py:140-141 | After acceptance the later packet-sum check always holds |
| RetransmissionTrace.CollectBindings | benchmarks/retransmission_trace.py:239 | The dictionary resolves every event to the session bound last in the whole trace |
| RetransmissionTrace.LastIsLatest | benchmarks/retransmission_trace.py:259-282 | A dictionary entry stands for the latest matching event |
| RetransmissionTrace.LatestIff | benchmarks/retransmission_trace.py:259-282 | It is that event if and only if it matches and none after it does |
| RetransmissionTrace.Remember | benchmarks/retransmission_trace.py:259-282 | Requests, acknowledgements, losses and timers update what is remembered, nothing else |
| RetransmissionTrace.Enqueue | benchmarks/retransmission_trace.py:261-270 | A queued packet keeps the latest request before it; later requests do not overwrite it |
| RetransmissionTrace.Select | benchmarks/retransmission_trace.py:271-272 | Selection consumes the pending entry of its key |
| RetransmissionTrace.Send | benchmarks/retransmission_trace.py:283-294 | First transmissions are remembered and retransmissions are explained |
| RetransmissionTrace.Resend | benchmarks/retransmission_trace.py:287-294 | A retransmission consumes its selection and records exactly the specified row |
| RetransmissionTrace.Process | benchmarks/retransmission_trace.py:246-294 | One event takes the state of the specification for n events to that for n+1 |
| RetransmissionTrace.RowsAre | benchmarks/retransmission_trace.py:288-294 | Rows are the retransmissions in trace order, each with its specified lineage |
| RetransmissionTrace.QueueFaultIff | benchmarks/retransmission_trace.py:264-269 | A queue entry lacks its request exactly when none came before, and its trigger exactly when no NAK preceded a NAK request, or no timer any other |
| RetransmissionTrace.UnmappedIff | benchmarks/retransmission_trace.py:252-256 | A send buffer is unmapped exactly when the sender never binds it |
| RetransmissionTrace.ExplainedUnlessFaulty | benchmarks/retransmission_trace.py:288-290 | A retransmission without that fault has original, request < queued < selected < send and a trigger of the request's kind, each the latest at its place, with nothing of the kind in between |
| RetransmissionTrace.ExplainedIs | benchmarks/retransmission_trace.py:288-294 | Such a chain determines the row, and a retransmission that has one is not reported |
| RetransmissionTrace.OrdinarySound | benchmarks/retransmission_trace.py:261-290 | An ordinary retransmission is valid for each kind of request exactly if its trigger is a NAK for a NAK request and a timer for the others |
| RetransmissionTrace.SoundExplains | benchmarks/retransmission_trace.py:237-312 | A valid verdict explains every retransmission by such a chain in one session, trigger included |
| RetransmissionTrace.ExplainedApart | benchmarks/retransmission_trace.py:271-288 | Two explained retransmissions never share a queued event |
| RetransmissionTrace.SoundInjective | benchmarks/retransmission_trace.py:271-312 | A valid verdict maps retransmissions injectively to queued events |
| RetransmissionTrace.CountReasons | benchmarks/retransmission_trace.py:301-306 | The counter holds the number of rows per reason |
| RetransmissionTrace.ReasonsAddUp | benchmarks/retransmission_trace.py:301-306 | Reason counts sum to the number of retransmissions |
| RetransmissionTrace.NoneUnknown | benchmarks/retransmission_trace.py:303-305 | Explained rows leave no unknown reason |
| RetransmissionTrace.SoundReasons | benchmarks/retransmission_trace.py:297-306 | A valid verdict has loss, tail and all-request reasons summing to the expected retransmissions |
| RetransmissionTrace.Analyze | benchmarks/retransmission_trace.py:237-315 | The verdict is valid exactly when no event is faulty and the coverage matches; the problems are exactly those of the trace |
| ReceiveEvidence.CollectBuffers | benchmarks/retransmission_trace.py:207 | The buffers are exactly those some binding names |
| ReceiveEvidence.WindowsUsedOnce | benchmarks/retransmission_trace.py:215 | No recorded window explains two insertions |
| ReceiveEvidence.EveryWindowAnswered | benchmarks/retransmission_trace.py:230-231 | Without the final problem the next event of a window's key is its insertion or a newer window |
| ReceiveEvidence.TracksNext | benchmarks/retransmission_trace.py:212-215 | The dictionary holds exactly the windows that are still open |
| ReceiveEvidence.RecordInsertion | benchmarks/retransmission_trace.py:214-224 | An insertion is recorded with the window open at that moment and counted under one status |
| ReceiveEvidence.Process | benchmarks/retransmission_trace.py:208-229 | One event takes the evidence for n events to that for n+1 |
| ReceiveEvidence.StatusesAddUp | benchmarks/retransmission_trace.py:218-221 | Every insertion is counted exactly once |
| ReceiveEvidence.AcceptedBounded | benchmarks/retransmission_trace.py:222-223 | The accepted packets are at most the insertions counted as accepted in or out of order |
| ReceiveEvidence.NoneUnknown | benchmarks/retransmission_trace.py:218-220 | Without an unknown-status problem no insertion counts as unknown |
| ReceiveEvidence.OpenAtEnd | benchmarks/retransmission_trace.py:230-231 | Entries left in the dictionary are exactly windows without an outcome |
| ReceiveEvidence.Collect | benchmarks/retransmission_trace.py:201-234 | The reported problems are exactly those of the trace; accepted keys, pops and bytes are its totals |
| Monitor.Observe | benchmarks/scalability_scorecard.py:488-501 | Exits are polled before output is read, so an exited peer seen incomplete really is incomplete, and nothing that happened before is missed |
| Monitor.FirstEarly | benchmarks/scalability_scorecard.py:502-506 | Finds the first peer seen exited and incomplete, if there is one |
| Monitor.ReportedIff | benchmarks/scalability_scorecard.py:521 | The reported completion time is the observed one exactly unless that was zero and the exit later |
| Monitor.ZeroReadingExample | benchmarks/scalability_scorecard.py:517-521 | A log whose first complete reading is zero, reported as five |
| Monitor.MonitorProcesses | benchmarks/scalability_scorecard.py:479-531 | Peers that complete before exiting are never reported early; on return all have exited and completed, and the completion time is that of the first iteration that saw all complete, unless that clock reading is zero, and never after the exit time; the loop goes on exactly before the deadline while a peer runs and none exited early |
| Monitor.NonzeroStart | benchmarks/scalability_scorecard.py:517-521 | Started at a positive clock reading, the monitor reports the first complete iteration's time |
| ChangeClassifier.MulticastIsCode | interop/ci_changes.py:269-276 | The multicast qualification scripts are never documentation |
| ChangeClassifier.BlankIff | interop/ci_changes.py:545-550 | A path is ignored exactly if it is all white space |
| ChangeClassifier.CleanKept | interop/ci_changes.py:545-550 | A path that needs no normalisation is classified as it is |
| ChangeClassifier.ProductionCoherent | interop/ci_changes.py:352-416 | Whatever a production file matches, interop is set together with at least one profile |
| ChangeClassifier.HarnessCoherent | interop/ci_changes.py:445-530 | A harness file sets interop exactly with a profile, and always unless it is a scorecard file |
| ChangeClassifier.HarnessTargets | interop/ci_changes.py:445-487 | A harness file with one of the newer names selects exactly the profiles of the first table row that applies |
| ChangeClassifier.OtherHarnessTargets | interop/ci_changes.py:488-530 | Any other harness file selects exactly the profiles of the first row of the older names, and every profile if none fits |
| ChangeClassifier.EstablishmentTargets | interop/ci_changes.py:352-386 | Connection establishment and packet filter sources select exactly their own profiles |
| ChangeClassifier.ProductionTargets | interop/ci_changes.py:387-416 | Any other production file selects a profile exactly if it is broad, of no known domain, or touches a domain of that profile |
| ChangeClassifier.BuildTargets | interop/ci_changes.py:294-349 | A C++ file selects each build, sanitizer, platform and application exactly under its own condition |
| ChangeClassifier.RootTargets | interop/ci_changes.py:687-710 | Benchmark and example files select by suffix, and everything if the suffix is unknown |
| ChangeClassifier.CppCoherent | interop/ci_changes.py:310-416 | A C++ file selects code, and interop exactly if it is production |
| ChangeClassifier.CodeCoherent | interop/ci_changes.py:569-719 | Every path that is not documentation selects code, with summary flags that agree with its profiles |
| ChangeClassifier.PathSound | interop/ci_changes.py:557-719 | The outcome of one path: code unless documentation, documentation alone otherwise |
| ChangeClassifier.ListsJoin | interop/ci_changes.py:539-725 | For any two raw path lists the flags of both together are the union of their flags, and docs-only is the conjunction, multicast included |
| ChangeClassifier.ListsMonotone | interop/ci_changes.py:539-725 | Adding raw paths anywhere in the list never deselects a job |
| ChangeClassifier.ClassifiedSound | interop/ci_changes.py:187-266 | Every classification: interop iff a reference profile, file interop iff a file profile, macOS backend implies backend, code iff not docs-only, docs-only leaves only documentation |
| ChangeClassifier.UnknownSelectsEverything | interop/ci_changes.py:717-719 | A path no rule knows selects every flag a path can select |
| ChangeClassifier.EverythingAbsorbs | interop/ci_changes.py:643-645 | One such path makes the whole change a full run |
| ChangeClassifier.FallbackUnreachable | interop/ci_changes.py:252-266 | On every coherent selection the fallback matrix is not used |
| ChangeClassifier.ChosenExactly | interop/ci_changes.py:253-257 | The matrix names a profile exactly when its flag is set |
| ChangeClassifier.MatrixMatchesInterop | interop/ci_changes.py:252-266 | Interop is set exactly when the matrix names a profile other than scalability |
| ChangeClassifier.LiveIffProduction | interop/ci_changes.py:348-350 | On every route through the C++ handler the live-transmit consumer is selected exactly for production files |
| ChangeClassifier.StepsSelect | interop/ci_changes.py:557-714 | What a path sets outright, followed by its assignments that read a flag back, selects exactly the path's outcome |
| ChangeClassifier.ChangeSet.ReadBack | interop/ci_changes.py:664-678 | Assigning a condition or the flag's own earlier value, for any gathered state, adds the flag or leaves it and never clears one |
| ChangeClassifier.ChangeSet.Include | interop/ci_changes.py:557-719 | One turn of the loop, assignments that read a flag back included, keeps the fields an exact description of the paths classified so far, in any order |
| ChangeClassifier.ChangeSet.Close | interop/ci_changes.py:721-725 | With multicast derived, the fields are the classification of all the paths |
| ChangeClassifier.ClassifyPath | interop/ci_changes.py:557-719 | Classifying a path adds it to those described exactly |
| ChangeClassifier.IncludeAll | interop/ci_changes.py:557-719 | In whatever order the paths come, the loop ends with the fields describing all of them |
| ChangeClassifier.ClassifySet | interop/ci_changes.py:557-725 | Loop and closing rule give the specified join over the paths |
| ChangeClassifier.Classify | interop/ci_changes.py:539-725 | The result depends only on the set of normalised paths, is coherent, and a forced run sets every flag |
| ChangeClassifier.ClassifyTogether | interop/ci_changes.py:539-725 | Running the classifier on two lists together or apart gives the same flags and docs-only, within those of a forced run |
| CapacityOperator.Operator.Interrupted | benchmarks/run_capacity_operator.py:18-25 | The handler records only the first signal and passes it to a runner that exists |
| CapacityOperator.LowestIsLowest | benchmarks/run_capacity_operator.py:39 | Of the signals a mask held the one with the lowest number is handled first |
| CapacityOperator.Operator.Occur | benchmarks/run_capacity_operator.py:18-35 | One event: a masked signal is held, an unmasked one is handled, and every signal enters the arrivals |
| CapacityOperator.ChildAfterBoth | benchmarks/run_capacity_operator.py:44-50 | The runner's state after two stretches of events is that after both together |
| CapacityOperator.Operator.Environment | benchmarks/run_capacity_operator.py:17-50 | Closed form of whatever happens at a place: held signals grow while masked, otherwise the first signal is recorded and forwarded, and a running runner exits with its first exit |
| CapacityOperator.Operator.Unmask | benchmarks/run_capacity_operator.py:39-45 | Lifting the mask records the lowest signal it held and forwards it to a runner |
| CapacityOperator.Operator.RaiseLimits | benchmarks/run_capacity_operator.py:28-31 | The commands run, the signal pending and the success are those of the world: none is begun after a signal, and at most the one in progress runs with one pending |
| CapacityOperator.RaisesQuietly | benchmarks/run_capacity_operator.py:28-32 | The runner is due exactly when raising succeeds and no signal came |
| CapacityOperator.Operator.Start | benchmarks/run_capacity_operator.py:33-38 | The runner is started unless saving or starting fails, also when a signal came between the check and the mask |
| CapacityOperator.Operator.HandOver | benchmarks/run_capacity_operator.py:39-42 | Whatever signal is pending by then has been sent to the runner, once if it came before the mask and twice otherwise |
| CapacityOperator.Operator.Launch | benchmarks/run_capacity_operator.py:32-45 | A started runner gets the first signal wherever it arrives, one from before the mask included |
| CapacityOperator.Operator.Wait | benchmarks/run_capacity_operator.py:44 | The status is the code the runner exited with, before or during the wait; signals during the wait are forwarded |
| CapacityOperator.Operator.Recover | benchmarks/run_capacity_operator.py:47-51 | The error path interrupts a runner exactly if it is still alive when the guard is evaluated, and raises exactly if the second wait fails |
| CapacityOperator.Operator.StopRunner | benchmarks/run_capacity_operator.py:50 | An interrupt and a wait whose code becomes the status |
| CapacityOperator.Operator.Measure | benchmarks/run_capacity_operator.py:27-46 | The runner is started exactly if both limits were raised, no signal was pending at the check and nothing failed; status, signals and sends are those of the world |
| CapacityOperator.Operator.Attempt | benchmarks/run_capacity_operator.py:27-51 | Measurement and error path together, with signals until the restoration begins: status, first signal and everything sent as functions of the world |
| CapacityOperator.Operator.Restore | benchmarks/run_capacity_operator.py:54-58 | Every original limit gets one restoration attempt with its original value |
| CapacityOperator.Operator.Finish | benchmarks/run_capacity_operator.py:53-65 | The status is kept, but zero only when the read-back equals the original and every restoration succeeded |
| CapacityOperator.ValueCondition | benchmarks/run_capacity_operator.py:47-50 | The values sent agree exactly when the error path sent nothing or the first signal was an interrupt |
| CapacityOperator.Operate | benchmarks/run_capacity_operator.py:17-66 | Every run, as a function of the world: the commands run, the first signal, everything sent to the runner, its exit, the status and whether the operator raises; a recorded signal reached a started runner and none was lost; only the first signal's value was sent, if and only if the wait did not fail with the runner alive or the first signal was an interrupt; all limits were restored; and status zero means the runner exited zero and the cleanup was confirmed |
| CapacityOperator.OtherValueRun | benchmarks/run_capacity_operator.py:44-50 | A run that sends the runner an interrupt although the operator received a termination request |
| PeerDiagnostics.DecodeEncoded | benchmarks/scalability_diagnostics.hpp:79-80 | Phase and index come back from one word; the index exactly when it fits 56 bits |
| PeerDiagnostics.Reporter.StoreOperation | benchmarks/scalability_diagnostics.hpp:75-80 | First half of a call: the word of this call becomes visible |
| PeerDiagnostics.Reporter.CountCall | benchmarks/scalability_diagnostics.hpp:81-84 | Second half: the sequence counts the call, modulo 2^64 |
| PeerDiagnostics.Reporter.WriterRuns | benchmarks/scalability_diagnostics.hpp:75-84 | Environment: any number of writer steps keep word and sequence at most one call apart |
| PeerDiagnostics.Reporter.Emit | benchmarks/scalability_diagnostics.hpp:138-176 | A record with s calls counted before and s' after shows call j with s <= j <= s'+1 |
| PeerDiagnostics.EqualSequences | benchmarks/scalability_diagnostics.hpp:144-175 | Equal sequences pin the record to call s or s+1, with fewer than 2^64 calls meanwhile |
| PeerDiagnostics.RecordDecodes | benchmarks/scalability_diagnostics.hpp:149-150 | Phase and socket index of a record belong to the same call |
| PeerDiagnostics.Observe | benchmarks/scalability_diagnostics.hpp:50-62 | Successive records never go back, neither in calls counted nor in the call shown |
| PeerDiagnostics.StableSequence | benchmarks/scalability_diagnostics.hpp:81-83 | One unchanged sequence over two records proves that no call was completed in between |
| PeerDiagnostics.RepeatedPhaseExample | benchmarks/scalability_diagnostics.hpp:81-83 | A repeated phase alone proves nothing |
| PeerDiagnostics.Slot.WriterRuns | benchmarks/scalability_diagnostics.hpp:85-92 | Environment: the count is stored before the logical id |
| PeerDiagnostics.Slot.Sample | benchmarks/scalability_diagnostics.hpp:153-158 | The shown count is never older than the shown logical id |
| GatedQualification.CasePlan | benchmarks/throughput_diagnostics.py:77-89 | The loops append exactly the planned cases in order |
| GatedQualification.AddProfile | benchmarks/throughput_diagnostics.py:82-86 | Warmups before repetitions for one profile |
| GatedQualification.PlanSize | benchmarks/throughput_diagnostics.py:82-86 | profiles x (warmups + repetitions) cases between the controls |
| GatedQualification.BlockSize | benchmarks/run_bounded_send_ab.py:27-33 | The stages plan 6, 10 and 10 transfers per block |
| GatedQualification.ReportGated | benchmarks/run_bounded_send_ab.py:149-196 | Wherever a run ends, its report shows stages only behind passed gates, and all passed only after the last gate |
| GatedQualification.MarkedReport | benchmarks/run_bounded_send_ab.py:197-202 | An interrupted block that was not analysed shows the interruption's exit code, and nothing else changes |
| GatedQualification.Run.Tick | benchmarks/run_bounded_send_ab.py:140-144 | Points are passed in program order; the first signal raises once and its place is recorded, every later one is ignored |
| GatedQualification.Run.Prepare | benchmarks/run_bounded_send_ab.py:152-163 | A block is announced before its log is opened |
| GatedQualification.Run.Drive | benchmarks/run_bounded_send_ab.py:164-172 | A driver enters its start in the history and runs the planned transfers; a signal during it escapes unless the driver swallows it |
| GatedQualification.Run.RunBlock | benchmarks/run_bounded_send_ab.py:154-177 | A driver starts only without a recorded signal, a swallowed signal still ends the run, and a block is finished exactly if nothing disturbs it; the report shows how far it got |
| GatedQualification.Run.Record | benchmarks/run_bounded_send_ab.py:178-185 | Exit code and contract of a driven block are entered, then written out |
| GatedQualification.Run.RunAll | benchmarks/run_bounded_send_ab.py:152-185 | Four blocks in order, all of them exactly if nothing disturbs them |
| GatedQualification.Run.PassGate | benchmarks/run_bounded_send_ab.py:186-192 | The gate decides between the next stage, code 1 for a broken contract and code 2 for missed thresholds; a failed gate marks every later stage as skipped |
| GatedQualification.Run.RunStage | benchmarks/run_bounded_send_ab.py:149-192 | A stage continues exactly if nothing disturbs it and its gate passes, and the report shows where it stopped otherwise |
| GatedQualification.Publish | benchmarks/run_bounded_send_ab.py:193-194 | The report says complete and qualified exactly if no signal comes first |
| GatedQualification.Conclude | benchmarks/run_bounded_send_ab.py:195-209 | Exit code and report of any end: an interruption, a failure of the cleanup or a crash, the gate's code or zero |
| GatedQualification.Qualify | benchmarks/run_bounded_send_ab.py:86-129 | A gate qualifies exactly when all four blocks meet their contract and the measured values meet the thresholds |
| GatedQualification.RunBlocks | benchmarks/run_bounded_send_ab.py:132-209 | Every run, as a function of its world: the report and the code are those of the place where it ends; stages start only behind passed gates, no driver starts after a recorded interruption, at most 104 transfers and twelve driver starts if qualified; qualified if and only if nothing disturbs the run up to its report and every stage meets the thresholds, that is if all gates passed and the signal did not arrive between the last gate and the report |
| GatedQualification.MissedQualification | benchmarks/run_bounded_send_ab.py:186-203 | A run that ends with all gates passed and a report that does not say qualified |
| QualificationGate.MedianIsP50 | benchmarks/run_bounded_send_ab.py:114 | The median used by the gate is the 50th percentile |
| QualificationGate.CheckControls | benchmarks/run_bounded_send_ab.py:95-102 | No error exactly when eight positive controls are pairwise within fifteen percent, and the error tells missing values from spread |
| QualificationGate.CheckProfile | benchmarks/run_bounded_send_ab.py:115-125 | No error exactly when nothing got worse by over five percent, the errors being those that apply; improved exactly by five percent in rate or total CPU |
| QualificationGate.CheckProfiles | benchmarks/run_bounded_send_ab.py:104-125 | The loop's errors and improvement flag are the conjunction and disjunction over the profiles |
| QualificationGate.Judge | benchmarks/run_bounded_send_ab.py:95-129 | The gate qualifies exactly when controls are steady, every profile is kept and some profile improves, and lists exactly the errors that apply |
| QualificationGate.BetterStillQualifies | benchmarks/run_bounded_send_ab.py:117-128 | Faster measurements with no more processor time never lose a qualification |
| QualificationGate.SenderTimeNeverImproves | benchmarks/run_bounded_send_ab.py:121-125 | Sender time can spoil a profile but not improve it; total time can do both |
| QualificationGate.RepeatedRatios | benchmarks/run_bounded_send_ab.py:114-117 | Of constant measurements each ratio is the candidate's value over the baseline's, metric by metric |
| QualificationGate.CompareSwapped | benchmarks/run_bounded_send_ab.py:117 | Swapping baseline and candidate inverts every ratio |
| QualificationGate.BandedBothWays | benchmarks/run_bounded_send_ab.py:117-125 | A profile is kept in both directions exactly when its ratios lie in two-sided bands, and then improves in a direction exactly by its rate |
| QualificationGate.BothWaysIff | benchmarks/run_bounded_send_ab.py:103-128 | A stage qualifies with either variant as the candidate if and only if the controls are steady, every ratio lies in its two-sided band, one profile's rate is up by the improvement factor and another's down by it; processor time never decides |
| QualificationGate.BothWaysExample | benchmarks/run_bounded_send_ab.py:95-128 | Controls and rows, for any number of repetitions, on which the gate qualifies either variant against the other |
| Distribution.SortedSorts | benchmarks/scalability_scorecard.py:117 | Sorting gives an ascending permutation |
| Distribution.FormsAgree | benchmarks/scalability_peer.cpp:481-490 | The peer's and the scorecard's interpolation agree at every position |
| Distribution.AtMonotone | benchmarks/scalability_scorecard.py:122-131 | A later position never gives a smaller value |
| Distribution.PercentileOrdered | benchmarks/scalability_scorecard.py:116-131 | Percentiles lie between the extremes and grow with the quantile |
| Distribution.Extremes | benchmarks/scalability_scorecard.py:139-143 | The least and greatest sample |
| Distribution.Summarize | benchmarks/scalability_scorecard.py:134-144 | A distribution is always in order, and the qualification accepts it exactly when no sample is negative and some is positive |
| FileMismatch.EqualUnlessDiffers | interop/interop_common.py:188-189 | Contents are equal exactly when no offset differs, end of file included |
| FileMismatch.OccurrenceIs | interop/interop_common.py:176 | Packet p, counted from one, covers the offsets from (p - 1) x size up to p x size |
| FileMismatch.FirstPacketsUnique | interop/interop_common.py:177-185 | There is only one list of the first mismatching packets |
| FileMismatch.LeastStep | interop/interop_common.py:177-185 | Appending keeps the list the least members in increasing order |
| FileMismatch.PacketsStep | interop/interop_common.py:176-185 | One more offset keeps the list exact |
| FileMismatch.CompareOffset | interop/interop_common.py:161-185 | One offset of the inner loop keeps first mismatch and packet list exact |
| FileMismatch.CompareBlocks | interop/interop_common.py:159-186 | One pair of blocks extends what is known to its end |
| FileMismatch.Preview | interop/interop_common.py:191-195 | The preview is the bytes from the mismatch on |
| FileMismatch.DescribeMismatch | interop/interop_common.py:133-206 | The blockwise comparison reports the least differing offset, the first mismatching packets, and identity exactly for equal files |
| FileMismatch.PacketsSettled | interop/interop_common.py:154-186 | Beyond both files the packet list no longer changes |
| GroupTiming.OffsetExact | interop/group_timing_sender.cpp:522-527 | Under the parsed limits neither 64-bit product wraps |
| GroupTiming.OffsetDriftFree | interop/group_timing_sender.cpp:522-527 | Each offset is the exact rate rounded down, never off by a microsecond |
| GroupTiming.OffsetsAscend | interop/group_timing_sender.cpp:522-530 | Source times never go back |
| GroupTiming.RunningMember | interop/group_timing_sender.cpp:366-380 | The member returned is the only running one; none is returned when there is no such member |
| GroupTiming.MemberIsRunning | interop/group_timing_sender.cpp:382-391 | True exactly when one running entry has the id |
| GroupTiming.Judge | interop/group_timing_sender.cpp:577-613 | A send is accepted exactly when its report is complete, on time and from the expected member, alone if there is no outage; the transition is the first message at or after the failover point that the backup carries |
| GroupTiming.TransitionIs | interop/group_timing_sender.cpp:587-591 | The transition is the first reply from the failover point on that shows the backup running, and only an outage has one |
| GroupTiming.Transmit | interop/group_timing_sender.cpp:565-629 | One message: ended input and a refused reply are told apart, and an accepted one is observed on the expected member |
| GroupTiming.ClosePrimary | interop/group_timing_sender.cpp:539-559 | The primary is drained first unless told otherwise, then closed |
| GroupTiming.SentSwitches | interop/group_timing_sender.cpp:604-607 | Accepted messages are observed on the primary before the transition and on the backup from it on |
| GroupTiming.Run | interop/group_timing_sender.cpp:538-652 | Every run, as a function of its world: how many messages are sent and why it ends; a successful run is primary^t backup^(N-t), with t at the failover point, or strictly between it and the end for an external outage |
| GroupTiming.ReportedTimes | interop/group_timing_sender.cpp:528-530 | The reported source times are ordered and drift-free |
| TailLoss.IndexIsWritten | benchmarks/group_tail_loss.py:39-40 | The index read from a DATA packet is the one the sender wrote behind the 16-byte header, least significant byte first |
| TailLoss.LittleRoundTrip | benchmarks/group_throughput_peer.cpp:120-125 | Reading inverts writing for every width |
| TailLoss.DataOnly | benchmarks/group_tail_loss.py:39 | Packets with the top bit set and short packets carry no index |
| TailLoss.NumberedInverse | benchmarks/group_tail_loss.py:35-36 | Sockets numbered in the order of their clients make the two maps inverse |
| TailLoss.Relay.Admit | benchmarks/group_tail_loss.py:30-36 | A new client gets the next upstream socket, within 64 entries |
| TailLoss.Relay.FromClient | benchmarks/group_tail_loss.py:28-45 | A datagram of a 65th client fails the relay and changes nothing else |
| TailLoss.Relay.Settle | benchmarks/group_tail_loss.py:39-45 | The first datagram of a tail is withheld, everything else is passed on unchanged and in order |
| TailLoss.Relay.FromUpstream | benchmarks/group_tail_loss.py:46-47 | Replies go back to the client the socket belongs to |
| TailLoss.Relay.Take | benchmarks/group_tail_loss.py:27-47 | One datagram of any socket: the target's replies go to the client whose socket it is, everything else of an upstream is ignored |
| TailLoss.Relay.Run | benchmarks/group_tail_loss.py:23-49 | Every run, for any datagrams: drops, forwards, replies and maps are exact for everything taken, and only a 65th client stops the relay early |
| TailLoss.Relay.Validate | benchmarks/group_tail_loss.py:51-57 | Succeeds, with members x tails losses, exactly when every path lost every tail |
| TailLoss.LostOnce | benchmarks/group_tail_loss.py:42-44 | A client and tail index lose at most one datagram |
| TailLoss.Earliest | benchmarks/group_tail_loss.py:42-44 | The one lost is the first of its client and tail index |
| TailLoss.LostAtAll | benchmarks/group_tail_loss.py:42-44 | A tail that was seen lost a datagram |
| TailLoss.DroppedIsProduct | benchmarks/group_tail_loss.py:54-55 | The drop set is the full product exactly when every client lost every tail |
| TailLoss.ProductSize | benchmarks/group_tail_loss.py:57 | The product has members x tails entries |

## Left out

- The transport library (codec, handshake, encryption, forward error correction, buffers): only its observable
  contract towards the peers appears, as FIFO queues with cumulative acknowledgement.
- Floating-point rounding and duration truncation in pacing, percentiles and medians: times and values are exact reals.
- Argument parsing, JSON output, digests, socket options, subprocess plumbing and report writing beyond the point where
  they can fail.
- Path tests of the classifier (prefixes, suffixes and tokens other than documentation and multicast scripts): each is
  an arbitrary predicate of the path; Unicode white space in path trimming is not modelled.
- Command-line overrides of a classification (`--integrations-only`, `--multicast-only`, `--without-integrations`).
- Analysis of a block's report beyond its contract verdict; the measured values a gate judges are arbitrary inputs.
- Acknowledgement-state and window snapshots of retransmission rows, and the receiver observations attached to them.
- `ci_schedule.py`, provenance and manifest validators, demos and scripted API peers.
- CapacityOperator.Operator.Interrupted: `send_signal` is taken to fail only with the exception the handler catches.
- CapacityOperator.Operate: starts when the original limits have been read and the handlers are installed.
- GatedQualification.RunBlocks: the driver's exit code from before an interruption is not kept beside the final one.
- GroupPhase.Phase: the digest is the sequence of words it covers; latencies and payload bytes are not modelled.
- GroupTiming.Run: waits for draining are single steps that succeed or fail.
- Monitor.MonitorProcesses: resource peaks are not modelled, and the clock counts from zero.
- RoundRobin.RunSender: the deadline is an arbitrary number of rounds.
- ChangeClassifier.ClassifyPath: plain `True` assignments are one set of flags added at once; the source sets them
  field by field.
- TailLoss.Relay.FromClient: socket errors other than the member bound are not modelled.
- PeerDiagnostics.Reporter.Emit: the per-socket slots are sampled separately, and atomics are sequentially consistent.
