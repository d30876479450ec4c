# A verified model of the media core

This project models the part of an RTP/SIP stack that turns a lossy, reordered
and wrapping RTP stream into ordered audio, digits and statistics, and proves
what it keeps over whole runs. It covers eight components of the source:

- the adaptive jitter buffer (`Jitter*.dfy`);
- the RFC 4733 digit sender and detector, each alone and against each other over
  a lossy channel (`Dtmf*.dfy`);
- the RTCP codec and session: builders and parsers, the sequence tracker, the
  loss window, the report blocks and the quality score (`Rtcp*.dfy`);
- symmetric RTP, the learning of the address to send to (`Symmetric*.dfy`);
- packet loss concealment (`Concealment*.dfy`, `Plc.dfy`);
- the timestamp normaliser (`Normalizing.dfy`) and the pool of RTP ports
  (`PortPool.dfy`);
- voice activity detection (`VoiceActivity.dfy`, `Vad.dfy`);
- the packet builder and the one sequence space that audio, comfort noise and
  digits share (`SequenceSpace.dfy`, `SendPath.dfy`).

Each module lies in the file of its name.
Each component has a value-level state with one function per operation, the
theorems about whole runs of these functions, and a class (or, for the codec,
methods on a byte buffer) that does the work step by step as the source does and
is proved to be the function. `Words.dfy` holds the machine words: wrapping,
truncating and saturating arithmetic is always written out.

Clocks, random offsets, arrival jitter, round trips, the pitch search and the
spectral voice score enter as parameters, of any value. Gains, window weights and quality
scores are exact reals where the source has floating point. The concealment
window is any function that is 0 at its first position, 1 at its last and
between 0 and 1 elsewhere.

## What the proofs say about the code

Where the code and its own description part ways, the model follows the code:

- `update` in src/rtp/plc.rs has a blend for the first audio after a loss. The
  buffer it blends with is always empty then, so it is never reached
  (`ConcealmentRuns.RecoveryIsNotBlended`).
- A missing packet is meant to be waited for a configured number of pops. While
  the buffer holds less than half the adaptive delay, pops are held off and not
  counted: a buffer that has run dry waits for ever and counts no loss
  (`JitterProgress.DefaultBufferStalls`), and what lies behind a gap at the end of
  a stream is never played (`JitterProgress.BufferBelowHalfStalls`). Without
  further packets playout stands still for good exactly when the buffer is below
  half the delay (`JitterProgress.StallsIffHeldOff`). Exactly the pops that are not
  held off and complete the count move playout
  (`JitterProgress.MissMovesPlayoutIff`).
- Nothing checks that the target delay lies within the configured bounds. The
  adaptive delay does, throughout a run, if and only if the target does
  (`JitterPacing.DelayStaysInBoundsIff`).
- The gain of a concealed frame is described as 0.96 per frame. Each frame is
  repeated from the one before, which has been scaled already, so the gains
  multiply: with frames longer than the pitch period by a blend, frame k is down by
  0.96 to the k(k + 1)/2 and more (`ConcealmentDecay.LossCompounds`).
- The gap density of the loss window is always 0, although it is described as
  the loss within gaps (`RtcpReceive.GapDensityIsZero`).
- Digits take no time of their own: two digits sent with no audio between share
  a timestamp and the second is not heard; with less than 640 samples between it
  is not heard either, unless the first lay at time zero
  (`DtmfConversation.SecondSentDigitHeardIff`). A digit at timestamp 0 is not heard by
  a new detector, for which 0 means "none" (`DtmfChannel.FirstDigitHeardIffNonZero`).
- The timeout for a digit without END is described as firing even when no packet
  arrives. It is looked at only when one does: until then the digit is held back,
  however late (`DtmfChannel.UnendedHeard`, `DtmfChannel.LatePacket`).
- The timeout in timestamps decides nothing: a later timestamp completes the digit
  in progress anyway (`DtmfAnswers.TimestampTimeoutIsIdle`).
- A digit completed without its END is queued but never answered, and the receive
  loop takes digits from the answers alone: it does not reach the application
  (`DtmfAnswers.AnswersAreEnds`, src/rtp/engine.rs:967-984).
- Each wrap of the 16-bit duration is counted as 65535 units, one too few
  (`DtmfAnswers.WrapsAreCounted`).
- Packet number 0 stands for "none" and switches off the guard against reordered
  packets. A digit of 8.07 seconds and more whose numbers include 0 can be reported
  with twice its duration (`DtmfChannel.LongDigitExample`); one whose numbers do not
  is reported right (`DtmfChannel.DigitHeard`).
- The cumulative loss in a report is clamped to 24 bits, but a loss of 2^31 and more
  has changed its sign before (`RtcpReceive.CumulativeLossIff`).
- With packet intervals of 8.192 seconds and more the 16-bit step no longer
  holds the interval, and the digit schedule can have too many updates
  (`DtmfSending.LongIntervalSchedule`, `DtmfSending.LongIntervalExample`). The
  first update of a digit reports one interval, not zero.
- The raw cubic of the quality score dips below 1 near R = 0; the clamp is what
  makes the score monotone (`RtcpQuality.CubicDips`).
- A jitter buffer configured for no packets at all still holds one after a
  timestamp jump (`JitterBound.JumpStoresOne`), and keeps within its bound
  throughout exactly the runs without a jump (`JitterBound.RunStaysBoundedIff`).
- Comfort noise is described as reusing the last audio timestamp; it carries the
  timestamp of the next audio packet (`SequenceSpace.WireShowsLedger`).
- An odd first port directly below the last port makes a range the pool refuses,
  although the last port is even (`PortPool.Pool.AllocateRtpPort`).

Hypotheses, where they are not the source's own: the sender's index of a packet
is unbounded and, before the first delivery after a reset, the numbers pushed
span less than half the number space; a sequence tracker's packets are less than
3000 ahead of and at most 100 behind the highest; all packets under one number of a
digit state the same duration, and those of a digit that comes to the 16-bit wrap
zone rise and leave out number 0; a digit's arrivals stay below the detector's
limit on packets; 32-bit counters and
products of configuration values do not overflow where a lemma says so.

## Model

| member | source | states |
|---|---|---|
| JitterRuns.PlayoutOrder | src/rtp/jitter.rs:153-526 | for any interleaving of pushes, pops and resets, what an epoch delivers was pushed in it and comes out in strictly increasing order of index, as the receiver unwraps the numbers, each packet at most once, and nothing still buffered is behind it |
| JitterRuns.SenderOrder | src/rtp/jitter.rs:153-526 | when every arrival is within half the number space of where playout stands, the packets delivered are arrivals of strictly increasing index of the sender |
| JitterRuns.PlayoutAccounting | src/rtp/jitter.rs:390-524 | the distance playout has travelled since the first delivery is deliveries + losses + drift skips, across catch-up and wrap-around |
| JitterRuns.ArrivalConservation | src/rtp/jitter.rs:153-330 | received = delivered + dropped + duplicated + buffered + cleared by a restart; the reported size is the map's and never exceeds the bound (at least one) |
| JitterSteps.PushStoresLatest | src/rtp/jitter.rs:153-330 | a packet ahead of playout and within five seconds of the newest: a duplicate is counted; otherwise the buffer keeps the latest min(n + 1, bound) of what it held and the packet, every one dropped being earlier than every one kept, and the counts, the newest timestamp, the highest number and the start of playout follow |
| JitterSteps.PushDropsLate | src/rtp/jitter.rs:160-174 | a packet at or behind playout is dropped and counted, and nothing else changes |
| JitterSteps.PushStartsAgain | src/rtp/jitter.rs:176-228 | a packet more than five seconds from the newest, either way, leaves a new buffer with only that packet |
| JitterSteps.PopPlaysNext | src/rtp/jitter.rs:338-466 | up to twice the delay, the next packet, if buffered, is returned and nothing else leaves but what a drift skip passes; above it exactly the earliest packet is dropped first |
| JitterSteps.PopMissesNext | src/rtp/jitter.rs:468-526 | when the next packet is missing: nothing with less than half the delay left, else one more miss, else one loss and, above half the bound, the earliest packet with every number passed over counted lost |
| JitterProgress.MissMovesPlayoutIff | src/rtp/jitter.rs:468-524 | at any point of any run, a pop that misses its target moves playout if and only if it is not held off and completes the configured count |
| JitterProgress.WaitIsBounded | src/rtp/jitter.rs:482-490 | while playout stays where it is, fewer pops than configured (and than one) miss without being held off, whatever arrives and however many are held off between |
| JitterProgress.DefaultBufferStalls | src/rtp/jitter.rs:468-481 | with the default configuration three packets and three pops leave a buffer that no further pop, however many, moves or counts a loss in |
| JitterProgress.StallsIffHeldOff | src/rtp/jitter.rs:338-526 | at any point of any run where the next number is missing and the buffer not overfull, no number of pops changes anything if and only if the buffer is below half the delay |
| JitterProgress.BufferBelowHalfStalls | src/rtp/jitter.rs:468-481 | with the next number missing and less than half the delay buffered behind it, no pop, however many, plays, drops or counts anything |
| JitterProgress.DryBufferStalls | src/rtp/jitter.rs:468-481 | the same for a buffer that has played everything, with a delay of at least 2 ms |
| JitterPacing.PacingHolds | src/rtp/jitter.rs:412-466 | over any run of any configuration, across resets and restarts, at most one number in 1500 pops is skipped for drift; and the delay stays between the lesser of target and least and the greater of target and greatest delay, where a step of 5 ms cannot wrap |
| JitterPacing.DelayStaysInBoundsIff | src/rtp/jitter.rs:713-746 | over any run the delay stays within the configured bounds throughout if and only if the target lies within them |
| JitterPacing.DelayFollowsLevel | src/rtp/jitter.rs:713-746 | k adaptations at one level raise the delay by 5k ms, to its bound, while the level is below the band around the goal, lower it while above, and leave it within |
| JitterPacing.SkipsEveryThirdHigh | src/rtp/jitter.rs:418-462 | a number is skipped for drift exactly at every third check in a row that finds more than two packets beyond the target |
| JitterBound.RunStaysBoundedIff | src/rtp/jitter.rs:176-228 | a run is within the bound throughout if and only if the bound is at least one or no packet of it is a jump |
| DtmfChannel.DigitOverLossyChannel | src/rtp/dtmf.rs:1081-1371 | whatever arrives of a digit sent, lost, repeated or reordered, once an END arrives in time the detector reports it exactly once with the duration sent, at least 50 and at most 8191 ms; long digits included whose numbers stop short of 0 |
| DtmfAnswers.AnswerIsEndReport | src/rtp/dtmf.rs:1081-1371 | whatever the detector and the packet, the answer is a report if and only if the step appends it, last, as that of an END; reports without END are never answered |
| DtmfAnswers.SentDigitAnsweredOnce | src/rtp/dtmf.rs:1081-1371 | of whatever arrives of a digit sent, once an END does in time, exactly one arrival is answered, with that digit and the duration sent |
| DtmfAnswers.AnswersAreEnds | src/rtp/dtmf.rs:1081-1371 | over any run of arrivals the answers are the reports of ENDs that the queue gets, in order |
| DtmfAnswers.WrapsAreCounted | src/rtp/dtmf.rs:1295-1345 | a digit of up to thirty seconds in steps of at most 1000 units is reported with its duration, less one unit for each wrap of the 16-bit field |
| DtmfChannel.ReportedAtMostOnce | src/rtp/dtmf.rs:1081-1371 | whatever arrives of a digit, in whatever order and however late, adds at most one report, with the duration of its END or of one of its updates |
| DtmfChannel.LatePacket | src/rtp/dtmf.rs:1172-1226 | the first packet let through after the timeout reports the digit, without END and with the duration before it |
| DtmfChannel.UnendedHeard | src/rtp/dtmf.rs:1228-1340 | a digit of which only updates arrive in time is held, unreported, with the duration of the last update not overtaken |
| DtmfChannel.ForemostIsGreatest | src/rtp/dtmf.rs:1139-1153 | which, unless its numbers include 0, is the one with the greatest number |
| DtmfConversation.SentDigitsHeardInOrder | src/rtp/dtmf.rs:1081-1371 | any number of digits sent, of each an END in time or updates only, with the gap kept, are reported in order, each exactly once: with the duration sent, or without END and with that of the foremost update |
| DtmfConversation.DigitsHeardInOrder | src/rtp/dtmf.rs:1081-1371 | the same for any packets that belong to a sequence of digits; a last digit without END is still due |
| DtmfChannel.HeardIffAudible | src/rtp/dtmf.rs:1120-1230 | an idle detector reports a digit below the wrap zone, once, if and only if its timestamp is new and outside the interdigit gap |
| DtmfChannel.FirstDigitHeardIffNonZero | src/rtp/dtmf.rs:980-1000 | a new detector hears its first digit if and only if the timestamp is not 0 |
| DtmfConversation.SecondSentDigitHeardIff | src/rtp/dtmf.rs:769-788 | two digits sent with some audio between: the second is heard if and only if the audio is long enough |
| DtmfSending.ScheduleClosedForm | src/rtp/dtmf.rs:769-788 | for intervals below 8.192 s: max(1, q-1) updates of 8I, 16I, ... units with consecutive numbers, three equal ENDs of 8Iq, one timestamp, marker on the first at most, counter moved by updates + 1 |
| DtmfSending.LongIntervalSchedule | src/rtp/dtmf.rs:769-788 | for longer intervals the schedule is that one if and only if the digit has as many steps of 65535 units as intervals, or two steps and one interval |
| RtcpRoundTrip.CompoundSrRoundTrip | src/rtp/rtcp.rs:220-610 | parsing SR + SDES (+ XR) gives the packets back in order: at most 31 blocks, 24-bit losses, CNAME of 255 bytes |
| RtcpRoundTrip.CompoundRrRoundTrip | src/rtp/rtcp.rs:220-610 | the same with a receiver report |
| RtcpRoundTrip.ByeRoundTrip | src/rtp/rtcp.rs:386-580 | any BYE arrives, before whatever follows it |
| RtcpRoundTrip.BlocksArriveIff | src/rtp/rtcp.rs:107-147 | the blocks arrive unchanged if and only if at most 31 and every loss fits 24 signed bits |
| RtcpRoundTrip.TextArrivesIff | src/rtp/rtcp.rs:524-580 | a CNAME or reason arrives whole if and only if valid and at most 255 bytes |
| RtcpForeign.ForeignCompound | src/rtp/rtcp.rs:220-455 | any compound of another implementation (reports with fewer blocks than announced and extensions behind, any chunks of any items, whole or cut short, BYE with any tail, any XR blocks, unknown packets, packets too short, each padded or not) followed by garbage is read packet by packet as it says, up to the garbage; a chunk gives the text of its last item of type 1 |
| RtcpText.TextIffScalars | src/rtp/rtcp.rs:373-377 | a text is taken if and only if it is the UTF-8 of Unicode scalar values |
| Rtcp.RtcpSession.BuildRtcp | src/rtp/rtcp.rs:1258-1297 | parsing what is written gives SR or RR, SDES and, where it fits, XR, with the figures, densities and scores of the session; the counters are saved for the next interval |
| RtcpReceive.TrackerRefines | src/rtp/rtcp.rs:1087-1116 | cycles and highest number encode the greatest sender index, over any number of wraps |
| RtcpReceive.ExpectedPackets | src/rtp/rtcp.rs:1143-1144 | expected packets are the highest index - the first + 1 while that fits 32 bits |
| RtcpReceive.LossesAccountForGaps | src/rtp/rtcp.rs:1118-1141 | recorded losses + advancing packets = the distance the highest index has travelled |
| RtcpReceive.WindowHoldsLastEvents | src/rtp/rtcp.rs:988-1141 | over any run, whatever the sources, the window is the last 256 loss events, newest first, kept over a change of source; the density is its; the tracker counts from the last change |
| RtcpReceive.IntervalsAddUp | src/rtp/rtcp.rs:1292-1296 | over any steady run of packets and reports, the losses counted for the intervals, which the fractions state, add up to the packets from the first to the highest index less those received |
| Rtcp.OwnBlockOfRun | src/rtp/rtcp.rs:1372-1413 | the block of a session after any steady run of packets and reports: its source, the packets missing since the first, clamped, and the highest index |
| Rtcp.OwnMetricsOfRun | src/rtp/rtcp.rs:1310-1368 | the loss rate sent after such a run is the share missing of the packets from the first to the highest, in 256ths, to the nearest |
| RtcpReceive.EventsInOrder | src/rtp/rtcp.rs:1118-1141 | a packet records one loss for each index it jumps over, then its own arrival; a late or repeated one only arrives |
| RtcpReceive.ScanFindsBursts | src/rtp/rtcp.rs:1007-1050 | the scan counts exactly the entries lost and the single ones received between two losses |
| RtcpReceive.CumulativeLossIff | src/rtp/rtcp.rs:1372-1380 | the cumulative loss sent after any such run is that number clamped to 24 bits, if and only if it fits 32 signed bits |
| RtcpReceive.BurstDensityMeaning | src/rtp/rtcp.rs:1007-1060 | the density is 0 if and only if nothing was lost, and else at least 128 |
| RtcpReceive.GapDensityIsZero | src/rtp/rtcp.rs:1007-1060 | the gap density is always 0 |
| RtcpQuality.ScoreFalls | src/rtp/rtcp.rs:1461-1503 | the score stays in [1, 4.5] and never rises with loss or with delay |
| RtcpQuality.ReportedScores | src/rtp/rtcp.rs:1310-1368 | the scores of an XR block lie in range, and more packets received never raise its loss rate nor lower its scores |
| SymmetricRuns.RateLimitHolds | src/nat/symmetric_rtp.rs:212-242 | over any run of packets, re-armings, and modes and addresses set, with time not going back and no reset or change of limit, the switches accepted in Always mode within one window of time, ends included, number at most the limit |
| SymmetricAnswers.LearnsExactly | src/nat/symmetric_rtp.rs:252-393 | over any run of packets, re-armings, modes and addresses set, with time not going back: a packet makes its address the learned one and is answered true if and only if the last threshold strangers since the last re-arming or change of SSRC are all from it and the change is allowed; the one that is not, in Always mode, of a learned address and with maxSwitches others in the window, locks |
| SymmetricAnswers.OnceWindowCloses | src/nat/symmetric_rtp.rs:380-400 | in Once mode, while no address is learned, the handler learns until as many strangers as the window holds |
| SymmetricAnswers.NewHandlerLearns | src/nat/symmetric_rtp.rs:111-129 | a new handler learns the address of its first threshold packets, at least one, and answers so at the last and at none before |
| SymmetricAnswers.FiveChangesInTenSeconds | src/nat/symmetric_rtp.rs:111-129 | a new handler in Always mode allows five changes of address within ten seconds, and no sixth |
| SymmetricAnswers.MediaGoesTo | src/nat/symmetric_rtp.rs:415-425 | over any run media goes to the learned address, and while there is none to the configured one last set |
| SymmetricRuns.RefusalIsFinal | src/nat/symmetric_rtp.rs:212-310 | over any run from an unlocked handler, from the first refused change on no event changes the effective address |
| SymmetricRuns.LearningNeedsEvidence | src/nat/symmetric_rtp.rs:252-393 | when an address is learned, the last threshold strangers all came from it, with one SSRC |
| ConcealmentRuns.NeverAmplifies | src/rtp/plc.rs:113-215 | over any run no sample in history, overlap buffer or output is larger than the largest fed |
| ConcealmentRuns.LongLossFades | src/rtp/plc.rs:182-215 | frame k of a loss stays below the peak times 0.96 to the k, but for rounding, the first from behind its blend with the last good audio; beyond the allowed number is silence; no frame exceeds the peak |
| ConcealmentDecay.LossCompounds | src/rtp/plc.rs:182-394 | with frames a little longer than the pitch period, frame k of a loss stays below the peak times 0.96 to the k(k + 1)/2, but for half a unit of rounding a frame |
| ConcealmentShape.LossRepeatsPeriod | src/rtp/plc.rs:182-215 | every sample of frame k of a loss, from the second on and away from joints, is the one a period before in what was played last, times 0.96 to the k, rounded |
| ConcealmentShape.FirstFrameBlends | src/rtp/plc.rs:196-209 | the first frame of a loss goes from the overlap to the repeated period over at most 16 samples |
| ConcealmentShape.AudioIsKept | src/rtp/plc.rs:113-157 | what good audio leaves behind in any run: itself in the history, the gain at 1, and for the next loss its last 16 samples or, after a loss, what the concealment would have gone on with |
| ConcealmentRuns.RepeatsLastPeriod | src/rtp/plc.rs:339-394 | away from its joints a concealed frame is the last pitch period heard, repeated, times the gain |
| ConcealmentRuns.RecoveryIsNotBlended | src/rtp/plc.rs:118-132 | recovered audio reaches the history as it came |
| ConcealmentRuns.ResetIsNew | src/rtp/plc.rs:164-172 | a reset concealer is a new one |
| Plc.PacketLossConcealer.ReadHistoryTail | src/rtp/plc.rs:235-249 | reads the suffix of everything appended |
| Normalizing.OutputIsElapsed | src/rtp/engine.rs:144-192 | for any remote timestamps the output is the time elapsed since the first packet, mod 2^32, and the flag is raised exactly at jumps |
| Normalizing.StepIsBounded | src/rtp/engine.rs:144-192 | each step is the remote's own, at most five seconds, or when flagged one packet |
| Normalizing.JumpIsFar | src/rtp/engine.rs:159-171 | a jump is a forward distance of more than five seconds; the test for a step back is redundant |
| Normalizing.JumpIs | src/rtp/engine.rs:159-171 | for any sample rate, by the shorter way round: forward by more than five seconds, or back, by less than five seconds or so far that it is forward by more |
| Normalizing.JumpRemaps | src/rtp/engine.rs:172-188 | a jump starts the mapping again at its packet |
| Normalizing.ResetIsNew | src/rtp/engine.rs:195-204 | a reset normaliser is a new one |
| PortPool.Pool.AllocateRtpPort | src/rtp/engine.rs:47-78 | whatever the offset: an even free port of a valid range, and none if and only if the range is invalid or all are held |
| PortPool.NeverGivenTwice | src/rtp/engine.rs:47-83 | over any run a port is given again only after it was released |
| PortPool.HeldWasGiven | src/rtp/engine.rs:47-83 | every held port is even, in the range it was asked from, and not yet released |
| VoiceActivity.EventsExactly | src/rtp/vad.rs:466-489 | StartTalking exactly when quiet and the voice run that ends here exceeds the onset; StopTalking likewise for silence |
| VoiceActivity.EventsAlternate | src/rtp/vad.rs:321-381 | between two events of a kind lies one of the other |
| VoiceActivity.StartComesFirst | src/rtp/vad.rs:321-381 | the first event is StartTalking |
| VoiceActivity.OffsetIsLearned | src/rtp/vad.rs:353-357 | a constant offset of either sign is approached from its side of zero, never overshot, and removed to within one unit |
| VoiceActivity.OffsetIsNotVoice | src/rtp/vad.rs:334-381 | of a constant signal, however large, the energy is at most 1 after 256 frames for each unit of it, and the frame is not judged voice |
| SequenceSpace.OneSequenceSpace | src/rtp/engine.rs:1309-1625 | over any sends, one at a time, wire numbers are consecutive mod 2^16, repeated only within an END triple, and the time between packets is that of the audio between, never negative |
| SequenceSpace.WireShowsLedger | src/rtp/engine.rs:1309-1625 | each wire packet shows the low bits of its unbounded index and time |
| SequenceSpace.LedgerIsOrderly | src/rtp/engine.rs:1587-1606 | unbounded indices go up by one except for END copies, and time does not go back |
| SequenceSpace.MarkersExactly | src/rtp/engine.rs:1315-1336 | audio has the marker when asked, first, or after comfort noise; noise when it opens a silence |
| JitterRuns.RunKeepsInvariant | src/rtp/jitter.rs:153-526 | every buffered number lies 1 to 0x8000 ahead of the last played one, at every point of every run |
| JitterRuns.OldestIsEarliest | src/rtp/jitter.rs:299-314 | the scan for the oldest packet finds the least sender index, whatever the wrap-around |
| JitterRuns.LabelIsUnique | src/rtp/jitter.rs:749-757 | a 16-bit number names one sender index in the receiver's window |
| JitterRuns.BeforeIsEarlier | src/rtp/jitter.rs:749-757 | the wrapping comparison agrees with the order of sender indices within a half-space |
| JitterRuns.PushHasEffect | src/rtp/jitter.rs:153-330 | a push counts exactly one of: late, duplicate, stored (with the evicted packets dropped) |
| JitterRuns.DeliverHasEffect | src/rtp/jitter.rs:406-466 | a delivery removes its target and, on a drift skip, at most the next number, dropping it |
| JitterRuns.MissHasEffect | src/rtp/jitter.rs:468-524 | a miss waits, or counts one loss, or catches up with the oldest packet and counts what it jumps over |
| JitterRuns.CatchUpLosses | src/rtp/jitter.rs:499-521 | the catch-up count is the number of positions strictly between target and packet |
| JitterSteps.RestartPlaysAtOnce | src/rtp/jitter.rs:539-555 | after a marker restart of a buffer that has played, the first packet pushed is the next one popped |
| JitterSteps.PopSleeps | src/rtp/jitter.rs:338-346 | nothing is played before the buffer has filled once |
| JitterSteps.PopFindsNothing | src/rtp/jitter.rs:390-404 | before the first delivery a pop of an empty buffer only counts itself |
| JitterSteps.ReorderedAreReceived | src/rtp/jitter.rs:230-244 | over any run no more packets count as reordered than arrive |
| JitterPacing.SteerStaysInRange | src/rtp/jitter.rs:713-746 | one adaptation leaves the delay between its least and greatest value and nothing else changed |
| JitterPacing.AdaptsTowardsGoal | src/rtp/jitter.rs:713-746 | one adaptation goes five milliseconds towards the goal, from outside a band of one packet |
| JitterPacing.AdaptsEvery250 | src/rtp/jitter.rs:412-416 | a delivery adapts the delay from the 250th pop since the last adaptation on, else not |
| JitterPacing.ChecksEvery500 | src/rtp/jitter.rs:418-462 | only pops whose count is a multiple of 500 check for drift |
| JitterBound.JumpStoresOne | src/rtp/jitter.rs:176-228 | the packet of a timestamp jump is stored whatever the bound |
| DtmfPayload.PayloadRoundTrip | src/rtp/dtmf.rs:238-294 | the four bytes give the payload back exactly when it is a digit with a six-bit volume |
| DtmfPayload.PaddingIsTransparent | src/rtp/dtmf.rs:238-283 | four zero bytes in front of a payload do not change what is read |
| DtmfPayload.ZerosAreNoPadding | src/rtp/dtmf.rs:238-283 | four zero bytes in front of anything else are the digit 0 of no length |
| DtmfPayload.PayloadLayout | src/rtp/dtmf.rs:238-283 | event, END mark, volume and duration lie where section 2.3 of RFC 4733 puts them |
| DtmfPayload.CharNamesDigit | src/rtp/dtmf.rs:126-193 | which characters name a digit, both ways |
| DtmfSending.GeneratedPlan | src/rtp/dtmf.rs:619-788 | what an idle sender makes of any digit that fits its counters: how many updates, with which durations and numbers, and the END triple |
| DtmfSending.LongIntervalExample | src/rtp/dtmf.rs:297-300 | two intervals of 16.384 s make three updates instead of one |
| DtmfSending.ScheduleShows | src/rtp/dtmf.rs:713-821 | each packet of a schedule: payload type, SSRC, the one timestamp, marker on the very first unless never, and in the payload the digit, the END mark, volume 10 and the units so far |
| DtmfSending.InterruptedDigit | src/rtp/dtmf.rs:619-675 | a digit begun during another: three ENDs of the old one under one number, then the first update of the new one |
| DtmfSending.EndFreesSender | src/rtp/dtmf.rs:713-762 | an END frees the sender and moves its timestamp on by the digit |
| DtmfChannel.DigitHeard | src/rtp/dtmf.rs:1081-1371 | the same for any packets that belong to one digit, with the detector's state after |
| DtmfChannel.DigitMissed | src/rtp/dtmf.rs:1120-1137 | a digit at the timestamp of the last one, or within the interdigit gap, adds no report |
| DtmfChannel.NextDigitCompletes | src/rtp/dtmf.rs:1228-1266 | the first packet of a further digit leaves the detector as if the digit in progress had been completed before |
| DtmfChannel.LongDigitExample | src/rtp/dtmf.rs:1139-1153 | a long digit numbered across 0 with two updates in the wrong order is reported with 16319 ms instead of 8128 |
| DtmfAnswers.TimestampTimeoutIsIdle | src/rtp/dtmf.rs:1177-1203 | the timeout in timestamps never changes what a packet does |
| DtmfAnswers.FirstIsStarted | src/rtp/dtmf.rs:1228-1266 | in every run the digit in progress keeps the timestamp it began with |
| DtmfAnswers.StuckStreamIsForgotten | src/rtp/dtmf.rs:1155-1172 | packets of one timestamp are counted, and the one after 1501 more makes the detector forget the digit |
| DtmfAnswers.TooLongIsForgotten | src/rtp/dtmf.rs:1317-1325 | a digit of more than thirty seconds is forgotten, one of thirty is not |
| DtmfAnswers.TimeoutCompletes | src/rtp/dtmf.rs:1172-1226 | after the timeout the digit in progress is completed with all it has lasted, wraps included |
| DtmfAnswers.EmptyDigitIsDropped | src/rtp/dtmf.rs:1328-1338 | an END of no duration discards the digit, unreported |
| DtmfConversation.SecondDigitHeardIff | src/rtp/dtmf.rs:1120-1137 | when the second of two digits is heard, exactly |
| DtmfDetecting.TimestampsAgree | src/rtp/dtmf.rs:1153-1290 | the two timestamps a detector keeps are always equal |
| RtcpRoundTrip.BlocksRoundTrip | src/rtp/rtcp.rs:107-147 | a list of report blocks round-trips up to the 24-bit loss |
| RtcpRoundTrip.MetricsRoundTrip | src/rtp/rtcp.rs:665-735 | the 28 bytes of VoIP metrics give the metrics back |
| RtcpRoundTrip.SdesAndXr | src/rtp/rtcp.rs:342-455 | what follows a report arrives in order |
| RtcpRoundTrip.XrAlone | src/rtp/rtcp.rs:417-455 | the XR block arrives with its source and metrics |
| RtcpForeign.BlockLayout | src/rtp/rtcp.rs:107-147 | the fields of a report block lie where section 6.4.1 of RFC 3550 puts them |
| RtcpForeign.SrLayout | src/rtp/rtcp.rs:292-319 | the fields of a sender report, likewise |
| RtcpForeign.MetricsLayout | src/rtp/rtcp.rs:701-735 | the VoIP metrics lie where section 4.7 of RFC 3611 puts them |
| RtcpForeign.ImpossiblePaddingStays | src/rtp/rtcp.rs:240-256 | padding that says it fills the whole packet, more or nothing is not taken off |
| RtcpForeign.ReservedIsZero | src/rtp/rtcp.rs:676-699 | the reserved byte is sent as zero |
| RtcpReceive.FarJumpRestarts | src/rtp/rtcp.rs:1100-1111 | a jump too far starts the count again: one received, one expected, no cycle, from its number |
| RtcpReceive.FirstPacketTracked | src/rtp/rtcp.rs:1093-1099 | as the first packet of a new tracker does |
| RtcpReceive.ScanCounts | src/rtp/rtcp.rs:1007-1060 | bursts and gaps divide the window, burst losses are all losses and at least half of the bursts |
| RtcpReceive.OwnLossFits | src/rtp/rtcp.rs:1372-1413 | a session's cumulative loss fits the 24 bits it is sent in |
| RtcpReceive.FractionMeaning | src/rtp/rtcp.rs:1372-1413 | the fraction lost is the interval loss in 256ths, rounded down, capped, 0 without loss |
| RtcpReceive.DensityMeaning | src/rtp/rtcp.rs:1050-1060 | a density is the share lost in 256ths, rounded down, 255 for all |
| RtcpReceive.OneEventIsTooFew | src/rtp/rtcp.rs:1007-1015 | a single event has no density |
| RtcpReceive.NewSessionIsEmpty | src/rtp/rtcp.rs:896-943 | a new session has received and expects nothing, and its window is of received packets |
| RtcpReceive.NothingIsLost | src/rtp/rtcp.rs:1372-1395 | and it reports no loss |
| Rtcp.OwnReportIs | src/rtp/rtcp.rs:1258-1279 | a session that has sent reports its sender counters, one that has not a receiver report |
| Rtcp.OwnReportRoundTrip | src/rtp/rtcp.rs:1258-1302 | a session's own report arrives with all its fields |
| RtcpQuality.ScoreOfCounts | src/rtp/rtcp.rs:1446-1503 | more packets received never lower the score |
| RtcpQuality.MosRisesWithR | src/rtp/rtcp.rs:1493-1503 | the clamped cubic is monotone in the R-factor |
| RtcpQuality.CubicDips | src/rtp/rtcp.rs:1493-1503 | the raw cubic is not |
| RtcpQuality.DelayCosts | src/rtp/rtcp.rs:1470-1476 | delay costs 0 below 100 ms, 2.4 there, then 0.024 and beyond 177.3 ms 0.134 for each millisecond |
| RtcpQuality.LossCosts | src/rtp/rtcp.rs:1478-1484 | loss costs up to 95, half of that at 25.1 percent |
| RtcpQuality.RFactorIs | src/rtp/rtcp.rs:1486-1489 | 93.2 less the two, not below 0 |
| RtcpQuality.ScoreIsCubic | src/rtp/rtcp.rs:1493-1503 | the score is the cubic, written out, between 1 and 4.5 |
| RtcpQuality.ScoreEnds | src/rtp/rtcp.rs:1493-1503 | beyond the ends of the scale the score is its worst and its best |
| RtcpQuality.LossRateIs | src/rtp/rtcp.rs:1446-1452 | the loss rate is the share lost in 256ths to the nearest, 255 at most |
| RtcpQuality.OneWayDelayIs | src/rtp/rtcp.rs:1463-1468 | delay one way is half the round trip and the jitter |
| RtcpQuality.MetricsFields | src/rtp/rtcp.rs:1338-1366 | the other metrics: densities, round trip, jitter buffer sizes, and the marks for unknown |
| RtcpQuality.ScoresAreRounded | src/rtp/rtcp.rs:1322-1336 | the scores are sent rounded, the MOS in tenths |
| RtcpReceive.OneSourceWindow | src/rtp/rtcp.rs:988-1141 | the same for one source: events and tracker are those of all its packets |
| RtcpReceive.ReportsAreLinked | src/rtp/rtcp.rs:1292-1296 | at every point of such a run the saved counters are not ahead of the current ones, and their difference is the loss stated so far |
| SymmetricRuns.LockIsForGood | src/nat/symmetric_rtp.rs:295-310 | after a refusal no packet, re-arming, mode or configuration changes the effective address |
| SymmetricRuns.RefusalLocks | src/nat/symmetric_rtp.rs:229-239 | only a handler with a learned address locks, and keeps it |
| SymmetricAnswers.OnceStopsAtFirst | src/nat/symmetric_rtp.rs:343-349 | a learned address ends the learning of Once mode |
| SymmetricAnswers.WindowReopens | src/nat/symmetric_rtp.rs:197-203 | re-arming and setting a mode open the whole window; only re-arming forgets who was heard; neither lifts a lock |
| SymmetricAnswers.NewSsrcForgets | src/nat/symmetric_rtp.rs:252-276 | a new SSRC forgets who was counting; the first one does not |
| SymmetricAnswers.ChangesAreRecorded | src/nat/symmetric_rtp.rs:212-242 | in Always mode every change decided on is recorded, allowed or not; in the other modes none is, and all are allowed |
| SymmetricAnswers.AlwaysKeepsWindow | src/nat/symmetric_rtp.rs:295-393 | every packet is counted, and in Always mode the window is left alone |
| SymmetricAnswers.NewWindow | src/nat/symmetric_rtp.rs:111-129 | the window of a new handler is twice its threshold |
| SymmetricAnswers.ResetIsNew | src/nat/symmetric_rtp.rs:437-446 | a reset handler is a new one but for its settings |
| ConcealmentRuns.AllowedFrames | src/rtp/plc.rs:86-94 | in exact arithmetic, the allowed number is the least, at least one, that lasts 60 ms |
| ConcealmentRuns.TemplateIsLastPeriod | src/rtp/plc.rs:346-371 | the template is the last period behind its blended head |
| ConcealmentRuns.CrossfadeJoins | src/rtp/plc.rs:430-437 | a crossfade begins on the old signal, ends on the new one and leaves the rest alone |
| ConcealmentRuns.CrossfadeBelow | src/rtp/plc.rs:430-437 | a crossfade, with rounding, exceeds neither signal |
| ConcealmentShape.TemplateHead | src/rtp/plc.rs:346-371 | the first 16 samples of the template are a blend from the end of the period before, if two different ones were heard |
| ConcealmentShape.TemplateOfShortHistory | src/rtp/plc.rs:346-371 | with less than two periods heard the last one is repeated as it is |
| ConcealmentShape.JointIsBlended | src/rtp/plc.rs:373-394 | each repetition but the first starts with a blend from the end of the one before |
| ConcealmentShape.DecayIsPower | src/rtp/plc.rs:192-195 | the gain after k frames is 0.96 to the k |
| ConcealmentShape.BlendIs | src/rtp/plc.rs:406-437 | a blend is weighted by the window, and of one sample it is the incoming one |
| ConcealmentShape.MixIs | src/rtp/plc.rs:430-437 | a mix lies on the line between its ends, as far as its weight |
| ConcealmentShape.CrossfadeAt | src/rtp/plc.rs:430-437 | each of the first samples of a crossfade is a blend, the others are the incoming ones |
| ConcealmentShape.RoundsToNearest | src/rtp/plc.rs:444-456 | rounding to the nearest sample, halves away from zero, kept to 16 bits |
| ConcealmentShape.NothingHeardIsSilence | src/rtp/plc.rs:78-107 | a new concealer conceals with silence; its pitch and its number of frames |
| ConcealmentShape.NothingDoesNothing | src/rtp/plc.rs:113-190 | nothing fed or asked for changes nothing |
| ConcealmentShape.UnreachedBlend | src/rtp/plc.rs:118-132 | what the blend of recovered audio would do, were it reached |
| ConcealmentRuns.NoOverlapInLoss | src/rtp/plc.rs:203-209 | while a loss lasts the overlap buffer is empty |
| Plc.WrittenHolds | src/rtp/plc.rs:222-230 | writing a sample keeps each of the last 390 samples in the slot of its position |
| Plc.SlotOf | src/rtp/plc.rs:235-249 | the reader's wrapped start and index address the right slots |
| PortPool.NothingFree | src/rtp/engine.rs:66-77 | a full rotated scan has seen every even port of the range |
| PortPool.RotationReaches | src/rtp/engine.rs:66-77 | the rotated scan comes by every index |
| PortPool.RangeIs | src/rtp/engine.rs:47-64 | a range is valid if and only if an even port lies in it before its end; it offers every even port in it |
| VoiceActivity.CountersAreRuns | src/rtp/vad.rs:466-489 | the saturating counters are the lengths of the current unbroken runs |
| VoiceActivity.DcStaysInRange | src/rtp/vad.rs:334-359 | the scaled offset estimate never leaves the range of a sample |
| VoiceActivity.ConstantIsItsMean | src/rtp/vad.rs:572-597 | the energy of a constant signal is its distance from the estimate |
| VoiceActivity.ChannelLength | src/rtp/vad.rs:572-597 | channel 0 has the integral share of interleaved samples |
| VoiceActivity.SamplesLast | src/rtp/vad.rs:222-247 | a duration in samples is the greatest that does not exceed it |
| VoiceActivity.EnergyIsMeanDistance | src/rtp/vad.rs:334-381 | a frame is judged by its mean distance from the offset it has itself just moved |
| VoiceActivity.SpectralVerdict | src/rtp/vad.rs:360-381 | by the spectral score a frame is voice exactly when the score says so, of two samples or more |
| VoiceActivity.EmptyFrameIsSilent | src/rtp/vad.rs:321-345 | a frame without a whole sample per channel is silence of no length |
| VoiceActivity.ResetStartsAgain | src/rtp/vad.rs:516-522 | a reset detector is a fresh one with its settings |
| Jitter.JitterBuffer.constructor | src/rtp/jitter.rs:124-150 | a new buffer is empty, at the target delay |
| Jitter.JitterBuffer.Push | src/rtp/jitter.rs:153-330 | the new state is that of the push function |
| Jitter.JitterBuffer.NoteArrival | src/rtp/jitter.rs:176-244 | updates the newest timestamp and the reorder count |
| Jitter.JitterBuffer.InsertAndEvict | src/rtp/jitter.rs:281-316 | stores the packet and evicts the oldest while over the bound |
| Jitter.JitterBuffer.EvictOverBound | src/rtp/jitter.rs:299-314 | the eviction loop removes oldest packets one by one and counts each as dropped |
| Jitter.JitterBuffer.FindOldest | src/rtp/jitter.rs:366-381 | the scan loop over the keys finds the packet of the scan function |
| Jitter.JitterBuffer.CheckInitialBuffering | src/rtp/jitter.rs:318-330 | playout may start once the buffered time reaches the smaller of adaptive and target delay |
| Jitter.JitterBuffer.Pop | src/rtp/jitter.rs:338-526 | the new state and the packet returned are those of the pop function |
| Jitter.JitterBuffer.SkipIfOverfull | src/rtp/jitter.rs:350-388 | above twice the delay the oldest packet is dropped without advancing playout |
| Jitter.JitterBuffer.FindTarget | src/rtp/jitter.rs:390-404 | playout goes on after the last number, or starts with the oldest packet |
| Jitter.JitterBuffer.DeliverTarget | src/rtp/jitter.rs:406-466 | delivery with adaptation every 250 and drift check every 500 pops |
| Jitter.JitterBuffer.CheckClockDrift | src/rtp/jitter.rs:418-462 | the drift counters and the skip of one number |
| Jitter.JitterBuffer.PlayMissing | src/rtp/jitter.rs:468-524 | hold off, wait, count lost or catch up |
| Jitter.JitterBuffer.PlayOldest | src/rtp/jitter.rs:499-521 | catch-up with the oldest packet |
| Jitter.JitterBuffer.AdaptDelay | src/rtp/jitter.rs:713-746 | five milliseconds up or down outside the hysteresis band |
| Jitter.JitterBuffer.ResetInitialBuffering | src/rtp/jitter.rs:545-555 | a marker restart empties the buffer and forgets the numbers |
| Jitter.JitterBuffer.Reset | src/rtp/jitter.rs:569-587 | a reset buffer is a new one |
| Dtmf.DtmfSender.constructor | src/rtp/dtmf.rs:557-575 | a new sender is idle |
| Dtmf.DtmfSender.BuildPacket | src/rtp/dtmf.rs:790-821 | one packet and the next number |
| Dtmf.DtmfSender.Start | src/rtp/dtmf.rs:619-675 | ends a digit in progress, then sends the first update with the marker; an unknown digit changes nothing |
| Dtmf.DtmfSender.Continue | src/rtp/dtmf.rs:678-703 | the next update, if any |
| Dtmf.DtmfSender.End | src/rtp/dtmf.rs:713-762 | the END packet three times under one number |
| Dtmf.DtmfSender.Generate | src/rtp/dtmf.rs:769-788 | the loop makes the packets of the generator function |
| Dtmf.DtmfDetector.constructor | src/rtp/dtmf.rs:980-1012 | a new detector has heard nothing |
| Dtmf.DtmfDetector.Process | src/rtp/dtmf.rs:1081-1371 | one received packet: the new state and the report are those of the step function |
| Dtmf.DtmfDetector.AcceptPacket | src/rtp/dtmf.rs:1172-1371 | a packet let through: timeout, new digit or same digit |
| Dtmf.DtmfDetector.CompleteIfTimedOut | src/rtp/dtmf.rs:1172-1226 | a digit without END is completed after the timeout |
| Dtmf.DtmfDetector.CompleteCurrent | src/rtp/dtmf.rs:1202-1250 | completion with the duration accumulated |
| Dtmf.DtmfDetector.StartOver | src/rtp/dtmf.rs:1228-1266 | a new timestamp completes the digit before and begins another |
| Dtmf.DtmfDetector.MeasurePacket | src/rtp/dtmf.rs:1295-1371 | duration with its 16-bit wrap, and the report at the END |
| Dtmf.DtmfDetector.Forget | src/rtp/dtmf.rs:1047-1064 | forgets all but the digits detected |
| Dtmf.DtmfDetector.PopDigit | src/rtp/dtmf.rs:1375-1378 | takes the first digit detected |
| RtcpBuffers.BuildSenderReport | src/rtp/rtcp.rs:476-502 | writes the SR's bytes at their place and nothing else |
| RtcpBuffers.BuildReceiverReport | src/rtp/rtcp.rs:504-522 | writes the RR's bytes and nothing else |
| RtcpBuffers.BuildSdesCname | src/rtp/rtcp.rs:524-548 | writes SDES with its padding and nothing else |
| RtcpBuffers.BuildBye | src/rtp/rtcp.rs:550-580 | writes BYE with sources and reason and nothing else |
| RtcpBuffers.BuildXr | src/rtp/rtcp.rs:741-778 | writes the 44 bytes of XR and nothing else |
| RtcpBuffers.BuildCompoundSr | src/rtp/rtcp.rs:585-599 | SR then SDES from the start of the buffer |
| RtcpBuffers.BuildCompoundRr | src/rtp/rtcp.rs:601-610 | RR then SDES from the start of the buffer |
| RtcpBuffers.ReadBlocks | src/rtp/rtcp.rs:292-338 | the block loop reads what the bytes hold, at most the count |
| RtcpBuffers.ReadItems | src/rtp/rtcp.rs:342-384 | the item loop finds the last CNAME and the end of the chunk |
| RtcpBuffers.ReadChunks | src/rtp/rtcp.rs:342-384 | the chunk loop |
| RtcpBuffers.ReadSources | src/rtp/rtcp.rs:386-414 | the source loop |
| RtcpBuffers.ReadXrBlocks | src/rtp/rtcp.rs:417-455 | the XR block loop keeps the last metrics block |
| RtcpBuffers.ReadOne | src/rtp/rtcp.rs:220-285 | one packet by its type |
| RtcpBuffers.ParseRtcpCompound | src/rtp/rtcp.rs:220-285 | the packet loop with padding removed, up to the first malformed header |
| Rtcp.RtcpSession.constructor | src/rtp/rtcp.rs:896-943 | a new session has seen nothing |
| Rtcp.RtcpSession.ShiftWindow | src/rtp/rtcp.rs:988-1005 | the loop shifts the window by one, in place |
| Rtcp.RtcpSession.CountBursts | src/rtp/rtcp.rs:1007-1050 | the burst loop counts what the scan counts |
| Rtcp.RtcpSession.RecordLossEvent | src/rtp/rtcp.rs:988-1060 | window, length and densities after one event |
| Rtcp.RtcpSession.RecordGap | src/rtp/rtcp.rs:1118-1141 | the events of one packet |
| Rtcp.RtcpSession.TrackNumber | src/rtp/rtcp.rs:1087-1116 | the three branches of the validation |
| Rtcp.RtcpSession.RecordRtpReceived | src/rtp/rtcp.rs:1070-1144 | one received packet: source, tracker and window |
| Rtcp.RtcpSession.BuildReportBlocks | src/rtp/rtcp.rs:1372-1413 | the block of the remote source, with a loss that fits |
| Rtcp.RtcpSession.AppendXr | src/rtp/rtcp.rs:1281-1285 | XR follows only for a known source and with 48 bytes left |
| Symmetric.SymmetricRtp.constructor | src/nat/symmetric_rtp.rs:111-129 | the initial state |
| Symmetric.SymmetricRtp.SetRateLimit | src/nat/symmetric_rtp.rs:180-189 | changes the limit and nothing else |
| Symmetric.SymmetricRtp.SetMode | src/nat/symmetric_rtp.rs:197-203 | re-arms unless disabling |
| Symmetric.SymmetricRtp.SetConfigured | src/nat/symmetric_rtp.rs:206-208 | changes the configured address and nothing else |
| Symmetric.SymmetricRtp.Prune | src/nat/symmetric_rtp.rs:217-224 | keeps exactly the entries not before the start |
| Symmetric.SymmetricRtp.RecordSwitch | src/nat/symmetric_rtp.rs:212-242 | prunes, records, and locks above the limit |
| Symmetric.SymmetricRtp.Accept | src/nat/symmetric_rtp.rs:331-357 | a candidate at the threshold |
| Symmetric.SymmetricRtp.ProcessIncomingWithTime | src/nat/symmetric_rtp.rs:295-393 | one packet: the new state and the answer |
| Symmetric.SymmetricRtp.ProcessIncomingWithSsrc | src/nat/symmetric_rtp.rs:252-276 | a changed SSRC discards the candidate first |
| Symmetric.SymmetricRtp.Rearm | src/nat/symmetric_rtp.rs:408-413 | re-opens the window, keeps the learned address |
| Symmetric.SymmetricRtp.Reset | src/nat/symmetric_rtp.rs:437-446 | forgets all that was learned |
| Plc.PacketLossConcealer.constructor | src/rtp/plc.rs:78-107 | the initial state |
| Plc.PacketLossConcealer.AppendHistory | src/rtp/plc.rs:222-230 | appends to everything heard |
| Plc.PacketLossConcealer.ApplyCrossfade | src/rtp/plc.rs:430-437 | the in-place loop is the crossfade |
| Plc.PacketLossConcealer.BuildOlaPeriod | src/rtp/plc.rs:406-426 | the blended period |
| Plc.PacketLossConcealer.FindTemplate | src/rtp/plc.rs:346-371 | the period to repeat |
| Plc.PacketLossConcealer.Tile | src/rtp/plc.rs:373-394 | the sample loop |
| Plc.PacketLossConcealer.GeneratePitchRepeat | src/rtp/plc.rs:339-398 | the repeated period, or silence without history |
| Plc.PacketLossConcealer.DetectPitch | src/rtp/plc.rs:255-333 | the default pitch without history or in silence, else what the search finds |
| Plc.PacketLossConcealer.BlendRecovered | src/rtp/plc.rs:118-132 | what an update writes |
| Plc.PacketLossConcealer.Update | src/rtp/plc.rs:113-157 | good audio: the new state |
| Plc.PacketLossConcealer.Conceal | src/rtp/plc.rs:182-215 | a loss: the new state and the frame |
| Plc.PacketLossConcealer.Reset | src/rtp/plc.rs:164-172 | the state of a new concealer |
| Normalizing.TimestampNormalizer.constructor | src/rtp/engine.rs:107-129 | the initial state |
| Normalizing.TimestampNormalizer.Normalize | src/rtp/engine.rs:144-192 | one packet: the new state, the output and the flag |
| Normalizing.TimestampNormalizer.SetPtime | src/rtp/engine.rs:137-139 | changes the packet time only |
| Normalizing.TimestampNormalizer.Reset | src/rtp/engine.rs:195-204 | forgets the mapping |
| PortPool.Pool.ReleaseRtpPort | src/rtp/engine.rs:81-83 | gives back that port only |
| Vad.VoiceActivityDetector.constructor | src/rtp/vad.rs:222-247 | the initial state, with at least 8000 Hz and onset and holdoff converted from milliseconds |
| Vad.VoiceActivityDetector.SumChannel0 | src/rtp/vad.rs:572-597 | the strided loop sums channel 0 and its distances from the offset |
| Vad.VoiceActivityDetector.UpdateEstimate | src/rtp/vad.rs:334-359 | the offset estimate after a frame |
| Vad.VoiceActivityDetector.ComputeMeanAbs | src/rtp/vad.rs:572-597 | mean distance from the offset, 0 for an empty channel |
| Vad.VoiceActivityDetector.ProcessVoice | src/rtp/vad.rs:466-476 | counts voice, starts talking above the onset |
| Vad.VoiceActivityDetector.ProcessSilence | src/rtp/vad.rs:479-489 | counts silence, stops talking above the holdoff |
| Vad.VoiceActivityDetector.Process | src/rtp/vad.rs:321-381 | one frame: the new state and the answer |
| Vad.VoiceActivityDetector.Reset | src/rtp/vad.rs:516-522 | the initial state, settings kept |
| Vad.VoiceActivityDetector.SetVoiceOnsetMs | src/rtp/vad.rs:292-294 | changes the onset only, converted at the rate of the detector |
| Vad.VoiceActivityDetector.SetSilenceHoldoffMs | src/rtp/vad.rs:300-302 | changes the holdoff only, converted at the rate of the detector |
| Vad.VoiceActivityDetector.SetChannels | src/rtp/vad.rs:253-255 | changes the channel count only, to at least one |
| SendPath.RtpPacketBuilder.constructor | src/rtp/packet.rs:32-44 | given first number and timestamp |
| SendPath.RtpPacketBuilder.BuildNext | src/rtp/packet.rs:47-77 | header of the next packet; number + 1, timestamp + samples |
| SendPath.RtpPacketBuilder.BuildWithMarker | src/rtp/packet.rs:80-108 | the same with a marker |
| SendPath.RtpPacketBuilder.NextSequence | src/rtp/packet.rs:120-124 | takes a number and leaves the timestamp |
| SendPath.RtpPacketBuilder.SetSequence | src/rtp/packet.rs:130-132 | sets the number and leaves the timestamp |
| SendPath.Engine.constructor | src/rtp/engine.rs:490-510 | the marker is due on the first audio |
| SendPath.Engine.SendAudio | src/rtp/engine.rs:1309-1411 | one audio packet; consumes the marker flags |
| SendPath.Engine.SendComfortNoise | src/rtp/engine.rs:1420-1498 | one noise packet: a number but no time |
| SendPath.Engine.SendDtmf | src/rtp/engine.rs:1581-1606 | one digit in the shared space; an unknown digit changes nothing |

## Left out

- Sockets, tasks, channels, locks, SRTP, STUN/TURN, SIP, SDP and the Python bindings: plumbing around the steps modelled here.
- G.711, the RTP header codec, Goertzel tone detection and the resampler: payloads are opaque bytes or samples.
- Jitter buffer: the NACK list, `process_redundancy` (marked dead) and the floating-point jitter estimate; twice the estimate is a parameter.
- DTMF: Sonus mode, `ignore_duration`, dynamic payload-type latching, and arrivals that interleave two digits; durations so long that a 32-bit counter wraps.
- RTCP: round-trip time, report intervals, NTP clock, processing of incoming reports; arrival jitter and the round trip are parameters.
- Overflow checks that stop a debug build of the source (products of sample rate and packet time, counters past 32 bits) are hypotheses or wrap as a release build does.
- Floating-point rounding of gains, window weights and quality scores; rounding to a sample is modelled.
- ConcealmentRuns.AllowedFrames: of an exact quotient, where the source rounds one of 32-bit floats up; for some frame sizes, such as 7 samples at 22050 Hz, that can come to one frame more.
- Pitch correlation and the WebRTC style voice score: any answer is allowed.
- Comfort noise pacing by the clock: a suppressed send is no send.
- RtcpReceive.ExpectedPackets: holds while the highest index fits 32 bits, because the 32-bit extended number wraps beyond.
- SymmetricRuns.RateLimitHolds: not for a limit of 2^32 - 1, which the 32-bit count of switches can never exceed.
- Normalizing.JumpIsFar: for sample rates up to some 429 MHz, beyond which five seconds exceed half the timestamp space.
- JitterPacing.DelayStaysInBoundsIff: not for a positive least delay with a greatest delay within 5 ms of 2^32, where a step up wraps; `JitterPacing.PacingHolds` likewise for the delay, not for the skips.
- DtmfChannel.HeardIffAudible: for digits below the wrap zone; what a detector makes of the packets of a longer digit that it does not hear is not followed.
- ConcealmentDecay.LossCompounds: an upper bound; for frames shorter than the pitch period and the blend only `ConcealmentRuns.LongLossFades` is stated.
- The receive loop that joins normaliser, jitter buffer and concealer: the components are proved one by one.
- Symmetric RTP: the constructors for RTCP and for a disabled handler, which differ in their numbers only.
