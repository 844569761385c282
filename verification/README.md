# Verification of the telecontrol pipeline

A Dafny model of a SCADA client that talks IEC 60870-5-104 to remote terminal units, from the octets on the wire to the report
printed from its cache file, with proofs of what the pipeline keeps in every run. `dafny verify dfyconfig.toml` checks the
whole project.

## What is modelled

- **Codec** (`Frame`, `FrameProperties`, `WireFormat`): frame recognition, sequence numbers, the frame and ASDU builders, and
  the parser of information objects in both layouts. The parser's offset loop is proved against a recursive decoder, the
  decoder against the builders, and both against the octets themselves.
- **Transport and framing** (`Transport`, `Framing`): a socket that moves any number of octets per call, the two exact
  transfer loops, and the two APDU readers, proved against a function of the octet stream.
- **Client session** (`Session`, `SessionProperties`, `SessionOctets`): starts and stops, attempts, STARTDT, the receive loop
  with its heartbeat, acknowledgements and deliveries. Effects are collected in order, and the theorems are about whole runs.
- **Mock server and link** (`Mock`, `MockProperties`, `Channels`, `LinkComposition`, `TornAnswers`): the server's loop, and a
  state machine of client and server over two octet channels that may be cut after any octet, with answers of the server that
  may be lost or torn without its noticing.
- **Alarms** (`Points`, `Alarms`, `AlarmProperties`, `Thresholds`): edge-triggered rules over keyed flags, the demands of a
  value, and event streams over any sequence of calls.
- **Cache and report** (`Text`, `Cache`, `CacheProperties`, `Window`, `Report`, `ReportOfFile`): log lines, the window, the
  trimmed file with its stream buffer, and the reader that rebuilds latest values and active alarms from the lines.
- **Acquisition** (`Acquisition`, `AcquisitionProperties`, `Interleavings`, `SnapshotProperties`, `WrittenBatches`): one
  worker per device and one monitor, interleaved step by step. A critical section is one step; each write that follows it
  outside the lock is another.
- **End to end** (`EndToEnd`, `ReportedValues`, `StaleReports`, `WireToReport`, `DeliveredValues`): what the report reads from
  the file of an interleaved run, compared with the alarm managers, with the snapshots and with the objects that came over the
  wire.
- **Configuration** (`Configuration`, `ConfigLoading`, `ConfigMeaning`, `ConfigFields`, `ConfigSwap`, `EntangledLines`,
  `Startup`): the fold over lines, what a line means and sets, the sorted listings, which lines may change places, and the
  system built from the result.

## Main results

- Codec: `ParseAsduInfo` refines the decoder; `SinglePointRoundTrip`, `ScaledRoundTrip`, `FloatRoundTrip`; `LayoutsAgree`;
  `Truncation`; `BuiltFrameValidity`; `AddressedReads`, `ConsecutiveReads` and `BuiltQualityReads` on the octets.
- Framing: `AcceptedExactly`, `ReadersAgree`, `StreamComesApart` with `ReadAllApdus`.
- Session: `ConnectionReportsAlternate`, `NoDeliveryBeforeStart` with `RunOpens`, `TurnOnTheWire`, `ActsMatched`,
  `ActsSpaced`, `DeadlineHolds`, `DeadLinkBound` with `DeadLinkDetected`.
- Link: `InvAtAllTimes` with `DeliveredIsPrefix`, `LastAckCountsFrames` and `PendingMeansInFlight`; `LostConfirmationEnds`;
  `ReadsOnExactly` with `TornAnswerBreaks`; `PeriodsSpaced`.
- Alarms: `EvaluationForgetsHistory`, `EvaluationExcludes`, `LimitsDecide`, `EvaluationTells`, `StreamsAlternate`.
- Cache: `FileIsSuffix`, `WindowIsLast`, `WindowIsEndOfHistory` with `WindowCanDiffer`, `LineRoundTrip`.
- Report: `ReportCounts`, `ReportLists` and `ReportTables`, of any file.
- Acquisition: `AlarmConservation`, `LogFollowsRules`, `RulesFollowSnapshots`, `PatrolSettlesStale`, `LatestMapIsSnapshots`,
  `DevicesAreIsolated`.
- End to end: `ReportMatchesAlarms`, `OrderlyReportMatchesAlarms`, `StaleReportedExactly` with `StaleReportedBySchedule`,
  `ReportShowsLastDelivered` with `ReportShowsLastEncoded`; `SnapshotShowsWire` with `StateFollowsWire`, `LimitsFollowWire`,
  `QualityFollowsWire` and `ReportShowsWire`.
- Configuration: `LineReadExactly`, `LastPointLine`, `LastDeviceLine`, `LastOptionLine`, `LoadedShape`, `AdjacentLinesSwap`,
  `EntangledLinesExactly`, `LoadedRunsValid`.

## How to read the model

- The original's classes are classes here, and its loops are loops with invariants; each method is proved against a function
  (`RunLoop`, `DecodeFrame`, `RunEvents`, `Apply`, `Replay`, `LoadLines`, ...), and the theorems are lemmas about those
  functions and about runs built from them.
- Time, sockets and the stop flag are inputs: a session is given the turns of its loop, each with its head time and with what
  the socket did. An input list that ends stands for the stop flag. Clock readings count nanoseconds, as the clocks do, and
  every alarm event has its own.
- Octets are integers below 256. Masks and shifts are written as the remainders and quotients they stand for, casts as the
  reductions they perform. A short float stays the four octets it travels in; a double in an alarm rule is an ordered value or
  not-a-number.
- Printing of doubles and times is a parameter of which only one thing is used: its results contain no bar.
- The devices of a running system are the enabled ones; `Startup` builds that list.
- `Flush` and `FlushMonitor` steps carry whether the trim already sees the line being written, because the stream is still
  open when the file is trimmed. This is why a file of limit M can hold M + 1 lines.

## Findings

- A built I frame is acceptable exactly up to 249 octets of ASDU; longer ones are built without complaint, and the length
  octet wraps around from 252 on (src/iec104/Iec104Frame.cpp:226-243, `FrameProperties.BuiltFrameValidity`).
- The server does not look whether its TESTFR con got out (src/mock/MockIec104Server.cpp:250-252). If it is lost, the client
  ends the session at the heartbeat's deadline (`TornAnswers.LostConfirmationEnds`). If it is torn and data follow, the client
  loses the framing, skips data and acknowledges frames it never read (`TornAnswers.TornAnswerBreaks`); in all other runs
  delivery and acknowledgement are exact.
- STALE events can be written in the opposite order to the changes they report (src/scada/ScadaSystem.cpp:185-192, 259-264),
  so that a report lists a point as stale that is not (`ReportedValues.StaleCanBeReportedFalsely`). The report is right
  exactly if the thread that wrote about the point last is the one that changed it last
  (`StaleReports.StaleReportedBySchedule`). No other rule is affected.
- The window of recent business records and the file can disagree about order (src/scada/DataCache.cpp:83-107): a record
  enters the window under the cache's lock and the file after that lock is released, so the workers of two devices can
  overtake each other in between (`Window.WindowCanDiffer`). Each device's own records keep their order, and the two agree
  exactly if the devices took turns in the same order in both (`Window.WindowIsEndOfHistory`).
- Two devices whose identifiers differ only in `|` against `/` share their keys in the report (src/scada/DataCache.cpp:31-34,
  src/tools/scada_cache_report.cpp:113, 145, `EndToEnd.ReportKeyExactly`).
- A global client option and the line that first names a device cannot change places (src/common/Config.cpp:164-167), with
  exactly the exceptions that `EntangledLines.EntangledLinesExactly` lists.
- The branch that records a value of unknown business type (src/scada/ScadaSystem.cpp:208-210) is never taken: a snapshot
  always has a known type (`WrittenBatches.SenseWrites`).
- `receiveSequence_` can hold 32768; only the wire value is reduced modulo 2^15 (src/iec104/Iec104Client.cpp:138-139).
- docs/project_profile.md:30 gives two seconds as the default wait before a reconnect; the code says 3000 ms
  (include/scada/common/Config.h:29), and so does the model.

## Model

| member | source | states |
|---|---|---|
| `Frame.BuildIFormat` | src/iec104/Iec104Frame.cpp:226-243 | pushing octet by octet yields the I frame: length octet reduced modulo 256, both sequence numbers shifted left by one within sixteen bits, then the ASDU |
| `Frame.BuildAsduHeader` | src/iec104/Iec104Frame.cpp:57-70 | the header of one spontaneous object, SQ = 0, address cut to 24 bits |
| `Frame.BuildSinglePointAsdu` | src/iec104/Iec104Frame.cpp:245-253 | state in the lowest bit, the four high quality bits kept |
| `Frame.BuildFloatMeasurementAsdu` | src/iec104/Iec104Frame.cpp:255-266 | the four octets of the float and the quality octet behind the header |
| `Frame.BuildScaledMeasurementAsdu` | src/iec104/Iec104Frame.cpp:268-277 | a signed 16-bit value, low octet first, and the quality octet behind the header |
| `Frame.ReadObject` | src/iec104/Iec104Frame.cpp:323-355 | one information element read in place at an offset is the decoded element of those octets |
| `Frame.OutstandingStep` | src/iec104/Iec104Frame.cpp:313-359 | one turn of the object loop: it stops exactly when the next object does not fit, otherwise it yields that object and moves past it |
| `Frame.ReadObjects` | src/iec104/Iec104Frame.cpp:304-359 | the offset-driven loop refines the recursive decoder of the remaining octets, never reading outside the ASDU |
| `Frame.ParseAsduInfo` | src/iec104/Iec104Frame.cpp:279-362 | for every octet sequence the parser returns what the recursive decoder says, including nothing for anything but an I frame of twelve octets or more |
| `FrameProperties.BuiltFrameValidity` | src/iec104/Iec104Frame.cpp:79-88 | a built I frame is accepted if and only if its ASDU has at most 249 octets, for every length |
| `FrameProperties.BuiltFrameFields` | src/iec104/Iec104Frame.cpp:178-196 | from a built frame both sequence numbers come back modulo 2^15 and the ASDU comes back untouched |
| `FrameProperties.SFormatFields` | src/iec104/Iec104Frame.cpp:214-224 | an acknowledgement is an S frame carrying its number modulo 2^15, also for 32768 |
| `FrameProperties.IoaRoundTrip` | src/iec104/Iec104Frame.cpp:15-25 | a written address reads back modulo 2^24, whatever its sign or size |
| `FrameProperties.SinglePointRoundTrip` | src/iec104/Iec104Frame.cpp:326-335 | parsing a built single-point frame recovers address, state, the quality bits and both sequence numbers, and never reports overflow |
| `FrameProperties.ScaledRoundTrip` | src/iec104/Iec104Frame.cpp:336-344 | parsing a built scaled-value frame recovers the signed value, address, all quality bits and both sequence numbers |
| `FrameProperties.FloatRoundTrip` | src/iec104/Iec104Frame.cpp:345-355 | parsing a built short-float frame recovers the four float octets, address, all quality bits and both sequence numbers |
| `FrameProperties.AddressedCount` | src/iec104/Iec104Frame.cpp:314-322 | with one address per object the decoder yields min(count, n / (3 + e)) objects from n octets |
| `FrameProperties.ConsecutiveCount` | src/iec104/Iec104Frame.cpp:304-311 | with one base address the decoder yields min(count, n / e) objects from n octets |
| `FrameProperties.ObjectCount` | src/iec104/Iec104Frame.cpp:290-361 | the number of objects of an ASDU of n octets in closed form for both layouts; none for an unknown type or a missing base address |
| `FrameProperties.AddressedOffset` | src/iec104/Iec104Frame.cpp:315-321 | SQ = 0: object k was read at 6 + (3 + e) * k, inside the ASDU |
| `FrameProperties.ConsecutiveOffset` | src/iec104/Iec104Frame.cpp:304-314 | SQ = 1: object k has address base + k and was read at 9 + e * k, inside the ASDU |
| `FrameProperties.LayoutsAgree` | src/iec104/Iec104Frame.cpp:290-361 | up to 127 elements give the same objects in both layouts, as long as the addresses stay below 2^24 (section 7.2.2 of IEC 60870-5-101) |
| `FrameProperties.Truncation` | src/iec104/Iec104Frame.cpp:313-361 | an ASDU cut anywhere after its six-octet header yields a prefix of the objects of the whole |
| `WireFormat.IFormatOctets` | src/iec104/Iec104Frame.cpp:226-243 | the octets of an I frame one by one: 0x68, the length, both numbers shifted left by one and low octet first, the ASDU |
| `WireFormat.HeaderOctets` | src/iec104/Iec104Frame.cpp:57-70 | the nine header octets one by one, for every address |
| `WireFormat.ElementOctets` | src/iec104/Iec104Frame.cpp:245-277 | the octets of the three elements: type 1, 11 or 13 in front, the state in bit 0 under the quality bits, the value in two's complement, the quality octet last |
| `WireFormat.AddressedReads` | src/iec104/Iec104Frame.cpp:313-359 | SQ = 0: object k of any ASDU, told on the octets at 6 + (3 + e) * k: its address, its value and each quality bit |
| `WireFormat.ConsecutiveReads` | src/iec104/Iec104Frame.cpp:304-359 | SQ = 1: the same of object k at 9 + e * k, its address counted up from the base |
| `WireFormat.InfoReads` | src/iec104/Iec104Frame.cpp:285-303 | the fields in front of the objects on their octets: type, SQ bit and count, cause, negative and test bits, common address; exactly the I frames of twelve octets or more have them |
| `WireFormat.BuiltQualityReads` | src/iec104/Iec104Frame.cpp:47-55 | for each builder the parsed object is invalid iff q >= 0x80, not topical iff q % 0x80 >= 0x40, substituted iff q % 0x40 >= 0x20, blocked iff q % 0x20 >= 0x10, and overflowing iff q is odd, never for single points |
| `Transport.TcpClient.SendAll` | src/net/TcpClient.cpp:65-85 | success means all of the data went out in order, failure a proper prefix and nothing else, under any sizes of the single sends |
| `Transport.TcpClient.ReceiveExact` | src/net/TcpClient.cpp:87-106 | success means the buffer range holds exactly the next octets and nothing around it changed; failure still takes octets only from the front |
| `Transport.SkipToStart` | src/iec104/Iec104Client.cpp:177-182 | skipping to the start octet changes neither reader's verdict about the stream, and succeeds on a steady socket exactly if there is a start octet |
| `Transport.ReceiveBody` | src/iec104/Iec104Client.cpp:197-203 | the header is written and the rest of the frame filled in place from the next octets |
| `Transport.ReadApdu` | src/iec104/Iec104Client.cpp:174-210 | the client's reader returns a frame only if the stream, after octets to skip, starts with it; on a socket that fails only for want of octets it does so whenever that is the case |
| `Transport.ReadApduMock` | src/mock/MockIec104Server.cpp:64-87 | the same of the mock's reader, which has no upper length check of its own |
| `Framing.AcceptedExactly` | src/iec104/Iec104Client.cpp:174-210 | a frame is accepted if and only if the stream is that valid APDU behind octets without a start octet |
| `Framing.ReadersAgree` | src/mock/MockIec104Server.cpp:64-87 | on every octet stream both readers accept the same frame and leave the same rest, or neither accepts |
| `Framing.LengthCheckSuffices` | src/iec104/Iec104Client.cpp:193-205 | after the client's length check its final validity check cannot fail |
| `Framing.StreamComesApart` | src/iec104/Iec104Client.cpp:174-210 | repeated reading of valid APDUs with anything but start octets between and after them returns exactly those frames in order |
| `Framing.ReadAllApdus` | src/iec104/Iec104Client.cpp:174-210 | the loop of reads over a socket yields that list under any chunking of the single receives |
| `Framing.ReadOfCut` | src/mock/MockIec104Server.cpp:64-87 | on frames back to back, cut after any octet, both readers find the first frame exactly if all of it is there |
| `Session.Iec104Client.NotifyConnection` | src/iec104/Iec104Client.cpp:233-238 | the handler hears only of changes of the connection state |
| `Session.Iec104Client.PerformStartDt` | src/iec104/Iec104Client.cpp:159-172 | STARTDT act goes out first; only a STARTDT con as the very next APDU opens the transfer |
| `Session.Iec104Client.Deliver` | src/iec104/Iec104Client.cpp:146-150 | every object of the frame is handed over, once and in order |
| `Session.Iec104Client.HandleFrame` | src/iec104/Iec104Client.cpp:118-150 | a confirmation clears the pending heartbeat, an act is confirmed, other frames are ignored, and a failed reply ends the session |
| `Session.Iec104Client.HandleData` | src/iec104/Iec104Client.cpp:138-150 | a data frame is acknowledged with N(S) + 1 before its objects are delivered, and if the acknowledgement fails nothing is |
| `Session.Iec104Client.OneTurn` | src/iec104/Iec104Client.cpp:88-150 | one turn of the loop in its order: overdue check, heartbeat, poll, frame |
| `Session.Iec104Client.RunSession` | src/iec104/Iec104Client.cpp:83-151 | the receive loop puts out exactly what the recursive run over its turns says |
| `Session.Iec104Client.RunAttempt` | src/iec104/Iec104Client.cpp:63-156 | one attempt: reports, handshake, session, and always the report that the link is down |
| `Session.Iec104Client.Run` | src/iec104/Iec104Client.cpp:55-157 | attempt after attempt; the client is disconnected whenever run has returned |
| `Session.Iec104Client.Start` | src/iec104/Iec104Client.cpp:34-39 | starting a running client launches no second worker |
| `Session.Iec104Client.Stop` | src/iec104/Iec104Client.cpp:41-49 | stopping joins the worker, leaves the client disconnected and adds no report to those of the run |
| `Session.Iec104Client.Lifetime` | src/iec104/Iec104Client.cpp:34-49 | any number of starts and stops puts out what one long run over all attempts would |
| `SessionProperties.ConnectionReportsAlternate` | src/iec104/Iec104Client.cpp:63-156 | over all attempts, failures and reconnects the reports alternate, beginning with true, and end with false |
| `SessionProperties.NoDeliveryBeforeStart` | src/iec104/Iec104Client.cpp:74-151 | no object is delivered in a session that has not confirmed STARTDT (section 5.3 of IEC 60870-5-104) |
| `SessionOctets.AttemptOpens` | src/iec104/Iec104Client.cpp:74-79 | an attempt opens the transfer exactly if it connected and the APDU read after STARTDT act was 68 04 0b 00 00 00, and delivers nothing otherwise |
| `SessionOctets.RunOpens` | src/iec104/Iec104Client.cpp:159-172 | a run opens a transfer exactly if one of its attempts was confirmed with those octets, and every object it delivers is a confirmed attempt's |
| `SessionOctets.FirstSent` | src/iec104/Iec104Client.cpp:159-164 | the first frame an attempt sends, if any, is 68 04 07 00 00 00 |
| `SessionOctets.FrameAnswered` | src/iec104/Iec104Client.cpp:118-151 | what follows a read: TESTFR act is answered with 68 04 83 00 00 00, data with the S frame of its N(S) + 1 and its objects in order, any other frame with nothing |
| `SessionOctets.TurnOnTheWire` | src/iec104/Iec104Client.cpp:88-151 | what one turn sends, octet for octet: 68 04 43 00 00 00 exactly when due in milliseconds of the options, then the answer to what it read, and nothing else |
| `SessionProperties.TurnActs` | src/iec104/Iec104Client.cpp:97-106 | a turn sends a TESTFR act if and only if its heartbeat is due, nothing is pending and the send succeeds |
| `SessionProperties.ActsMatched` | src/iec104/Iec104Client.cpp:97-122 | in every session acts sent never exceed confirmations read by more than the one that is pending |
| `SessionProperties.ActsSpaced` | src/iec104/Iec104Client.cpp:97-106 | under a monotone clock consecutive acts are at least the interval apart, the first that far after the start |
| `SessionProperties.DeadlineHolds` | src/iec104/Iec104Client.cpp:88-132 | while a heartbeat is unanswered no frame, data or other, moves its deadline, and no head at or past it is survived |
| `SessionProperties.DeadLinkPending` | src/iec104/Iec104Client.cpp:90-95 | with a heartbeat pending and nothing arriving the session ends within one period of its deadline |
| `SessionProperties.DeadLinkBound` | src/iec104/Iec104Client.cpp:88-110 | if nothing arrives, sends succeed and heads are at most P apart, the session can only end by heartbeat timeout at a time t with interval + timeout <= t - lastRx < interval + timeout + 2P |
| `SessionProperties.DeadLinkDetected` | src/iec104/Iec104Client.cpp:83-110 | and it does end so on every schedule of heads that reaches interval + timeout + P |
| `Mock.MockIec104Server.ServeTurn` | src/mock/MockIec104Server.cpp:238-329 | one turn of the serving loop in its order: drop, answer, quiet phase, three numbered frames, next time; an answer that does not get through changes nothing for the server |
| `Mock.MockIec104Server.BuildData` | src/mock/MockIec104Server.cpp:297-320 | the three frames of a period, built and numbered one after the other, with the 16-bit counter wrapping around |
| `Mock.MockIec104Server.ServeClient` | src/mock/MockIec104Server.cpp:218-333 | what the serving loop puts on the wire, send by send, is what the recursive run over its turns says; nothing for a client that does not open with STARTDT act, and no session if its confirmation fails |
| `MockProperties.TurnSendsExactly` | src/mock/MockIec104Server.cpp:239-328 | a turn sends its three frames exactly if the time has come, the link is neither dropped nor broken, the server is not quiet and the socket takes them |
| `MockProperties.PeriodsSpaced` | src/mock/MockIec104Server.cpp:239-328 | the data periods of a session start no earlier than it, are at least the interval apart, and none lies in the quiet phase or past the drop, under any clock |
| `MockProperties.AnswersExactly` | src/mock/MockIec104Server.cpp:250-254 | 68 04 43 00 00 00 is answered with 68 04 83 00 00 00 and 68 04 07 00 00 00 with 68 04 0b 00 00 00, whole or torn, anything else with nothing |
| `MockProperties.SessionOpens` | src/mock/MockIec104Server.cpp:218-227 | a session puts out anything exactly if it was opened with STARTDT act, first of all the confirmation, and nothing behind a torn one |
| `Channels.TakeKeeps` | src/iec104/Iec104Client.cpp:174-210 | whichever side reads, from a channel cut after any octet and perhaps ending in a torn frame, it gets the oldest unread frame, whole, and never the torn one |
| `LinkComposition.WireNumbers` | src/mock/MockIec104Server.cpp:297-320 | the server's 16-bit counter and the 15-bit number on the wire both follow the count of frames, through their wrap-arounds |
| `LinkComposition.BuiltDataFrames` | src/mock/MockIec104Server.cpp:297-320 | the three frames of a period carry consecutive numbers and decode to exactly the three encoded objects |
| `LinkComposition.ClientKeeps` | src/iec104/Iec104Client.cpp:88-151 | a turn of the client keeps the invariant of both ends and both channels |
| `LinkComposition.ServerKeeps` | src/mock/MockIec104Server.cpp:238-329 | a turn of the server keeps it, whether its answer gets through, is lost or is torn, unless octets go out behind a torn one |
| `LinkComposition.ConfirmKeeps` | src/iec104/Iec104Client.cpp:159-172 | the first frame a client of this server reads is STARTDT con, and accepting it keeps the invariant |
| `LinkComposition.StepKeeps` | src/mock/MockIec104Server.cpp:218-333 | every step of either side and every cut keeps it, with the same exception |
| `LinkComposition.InvAtAllTimes` | src/iec104/Iec104Client.cpp:72-151 | the invariant holds after every run of the two sides, over channels cut after any octet and with answers lost or torn, in which nothing went out behind a torn answer |
| `LinkComposition.DeliveredIsPrefix` | src/iec104/Iec104Client.cpp:134-150 | in every such run the delivered objects are a prefix, in order and with equal fields, of those the server encoded, and all of them once nothing is in flight |
| `LinkComposition.LastAckCountsFrames` | src/iec104/Iec104Client.cpp:138-144 | in every such run the last acknowledgement carries the number of data frames received in the session modulo 2^15 (section 5.1 of IEC 60870-5-104); once the session has ended, possibly all but the last, whose acknowledgement could not be sent |
| `LinkComposition.PendingMeansInFlight` | src/mock/MockIec104Server.cpp:246-255 | in every such run a heartbeat is pending exactly when one exchange is in flight or its confirmation was lost, and there never is more than one |
| `TornAnswers.LostConfirmationEnds` | src/iec104/Iec104Client.cpp:90-95 | once a confirmation was lost or torn, the session outlives no head at or past the deadline of that heartbeat, which nothing moves |
| `TornAnswers.ReadsOnExactly` | src/mock/MockIec104Server.cpp:250-252 | the next read returns the next frame written, and leaves what follows it, if and only if no torn answer precedes it |
| `TornAnswers.TornSwallows` | src/iec104/Iec104Client.cpp:177-205 | whatever a read makes of a torn confirmation and the data frame behind it confirms nothing, carries no object and takes the start of the data frame with it |
| `TornAnswers.TornAnswerBreaks` | src/mock/MockIec104Server.cpp:246-255 | for any client with a heartbeat and any server that sends at once there is a run, with a torn confirmation followed by data, after which the delivered objects are no prefix and the last acknowledgement does not count the frames read |
| `Text.DecimalInjective` | src/scada/ScadaSystem.cpp:282-284 | different integers print differently, signs included |
| `Text.DecimalReads` | src/scada/DataCache.cpp:71 | a printed integer reads back: its sign and decimal digits of its value, without leading zeros |
| `Text.PointKeyInjective` | src/scada/ScadaSystem.cpp:282-284 | device identifier, colon and decimal address determine both parts, even if identifiers contain colons |
| `Text.SplitLine` | src/tools/scada_cache_report.cpp:45-58 | the character loop returns exactly the fields between delimiters |
| `Text.SplitOfJoin` | src/tools/scada_cache_report.cpp:45-58 | fields without the delimiter survive joining and splitting |
| `Text.JoinOfSplit` | src/tools/scada_cache_report.cpp:45-58 | joining the fields of any line restores the line |
| `Text.Clean` | src/scada/DataCache.cpp:31-34 | a cleaned field has no bar and, if it had none, is unchanged |
| `Points.RuleNameInjective` | src/scada/AlarmManager.cpp:27-99 | different rules have different names |
| `Points.QualityText` | src/scada/DataPoint.cpp:92-121 | the text of quality bits never contains a bar |
| `Alarms.RuleKeyInjective` | src/scada/AlarmManager.cpp:109 | the text key of a rule names one address and one rule |
| `Alarms.AlarmManager.Transition` | src/scada/AlarmManager.cpp:102-128 | an event is produced exactly when the rule's state changes, with the fields of that change; exactly that rule gets the new state |
| `Alarms.AlarmManager.EvaluateStale` | src/scada/AlarmManager.cpp:90-100 | STALE of the point takes the given state, with an event exactly on change |
| `Alarms.AlarmManager.Evaluate` | src/scada/AlarmManager.cpp:21-88 | an evaluation runs the checks its point type asks for in their order, with the events and states of that run, every event with its own reading of the clock |
| `AlarmProperties.EvaluationSettles` | src/scada/AlarmManager.cpp:21-88 | after an evaluation exactly the rules its value demands are active among those the definition watches; all other rules are as before |
| `Thresholds.LimitsDecide` | src/scada/AlarmManager.cpp:36-40 | after an evaluation of a number v, HIGH_HIGH is active iff v >= its limit, HIGH iff v >= its limit and HIGH_HIGH is not, LOW_LOW and LOW likewise below: inequalities of reals |
| `Thresholds.NaNPassesNothing` | src/scada/AlarmManager.cpp:36-40 | not-a-number as value or as limit activates no limit rule |
| `Thresholds.InfinitiesDecide` | src/scada/AlarmManager.cpp:36-40 | an infinite value passes exactly the limits on its side |
| `Thresholds.QualityDecides` | src/scada/AlarmManager.cpp:26-33 | DATA_QUALITY is active after an evaluation iff the value is invalid or blocked |
| `Thresholds.StateDecides` | src/scada/AlarmManager.cpp:72-84 | STATE is active after an evaluation iff the state as 0 or 1 is not the normal one |
| `Thresholds.OthersStay` | src/scada/AlarmManager.cpp:35-36 | limits of points that have none by type, and STATE of points without a normal state, stay as they were |
| `Thresholds.EvaluationTells` | src/scada/AlarmManager.cpp:102-128 | the events of an evaluation come in the order of the rules, each with its point, severity, value, time and the message for raising or clearing |
| `AlarmProperties.EvaluationExcludes` | src/scada/AlarmManager.cpp:37-40 | after an evaluation, whatever went before, HIGH and HIGH_HIGH of a point are not both active, nor LOW and LOW_LOW, and STALE is not |
| `AlarmProperties.EvaluationForgetsHistory` | src/scada/AlarmManager.cpp:21-100 | with one fixed definition per address, what is active after an evaluation does not depend on any earlier calls |
| `AlarmProperties.RunChained` | src/scada/AlarmManager.cpp:102-128 | within one evaluation the events of each rule lead step by step from its old to its new state |
| `AlarmProperties.CallsChained` | src/scada/AlarmManager.cpp:21-128 | over any calls each rule's events are raised and cleared in turn and lead to its state |
| `AlarmProperties.StreamsAlternate` | src/scada/AlarmManager.cpp:21-128 | from the start each rule's stream alternates beginning with raised, and folding it gives whether the rule is active |
| `AlarmProperties.NetOfChained` | src/scada/AlarmManager.cpp:112-128 | in such a stream raised minus cleared is the difference of the states at its ends |
| `Cache.DataCache.Configure` | src/scada/DataCache.cpp:53-58 | the limit is the one asked for and never zero: zero asks for 10000 |
| `Cache.DataCache.Remember` | src/scada/DataCache.cpp:87-91 | the record goes to the end of the window, and what exceeds the limit falls off its front |
| `CacheProperties.NewestLineKept` | src/scada/DataCache.cpp:171-200 | the line just appended ends the file in every order of flush and trim if and only if the limit is not zero, which is what configuring guarantees |
| `Cache.DataCache.TrimIfNeeded` | src/scada/DataCache.cpp:181-202 | reading and rewriting leaves exactly the last lines up to the limit |
| `Cache.DataCache.AppendText` | src/scada/DataCache.cpp:164-179 | the new line ends the file, whether or not the trim that runs before the stream is closed already saw it |
| `Cache.DataCache.AppendMeasurement` | src/scada/DataCache.cpp:60-81 | latest value, then one MEASURE line |
| `Cache.DataCache.AppendBusinessData` | src/scada/DataCache.cpp:83-107 | latest value and window, then one BUSINESS line |
| `Cache.DataCache.AppendAlarm` | src/scada/DataCache.cpp:109-124 | one ALARM line and nothing else |
| `Cache.DataCache.LatestMeasurement` | src/scada/DataCache.cpp:126-135 | the latest value filed under device and address, or nothing |
| `Cache.DataCache.RecentBusinessData` | src/scada/DataCache.cpp:137-147 | the last records of the window, at most the limit |
| `CacheProperties.AppendKeepsSuffix` | src/scada/DataCache.cpp:164-202 | one append keeps the file a suffix of the history, with at least min(n, M) and at most M + 1 lines, in both orders of flush and trim |
| `CacheProperties.FileIsSuffix` | src/scada/DataCache.cpp:164-202 | the same after any number of appends, and nothing is lost while no more than M lines were written |
| `Window.WindowIsLast` | src/scada/DataCache.cpp:83-92 | after any interleaved run the window is the last min(n, M) of the records the program put into it, in that order |
| `Window.QueryIsLast` | src/scada/DataCache.cpp:137-147 | after any run a query returns the last min(limit, M, n) of them |
| `Window.WindowIsEndOfHistory` | src/scada/DataCache.cpp:83-107 | with nothing pending, the window equals the last M business records of the file's history exactly if the last M were put into the window and written by the same devices in the same order |
| `Window.SamePerDevice` | src/scada/ScadaSystem.cpp:187-188 | of each device, window and file have had the same records in the same order |
| `Window.WindowCanDiffer` | src/scada/DataCache.cpp:92-106 | with two devices a run exists that ends with the records of the window in the opposite order to the lines of the file |
| `CacheProperties.LineRoundTrip` | src/scada/DataCache.cpp:66-80 | splitting any written line gives exactly its cleaned fields: 12 of a MEASURE, 10 of a BUSINESS, 11 of an ALARM line |
| `Report.ReadReport` | src/tools/scada_cache_report.cpp:97-184 | the report's loop over lines is the replay of the lines, one after the other |
| `Report.ReadRecord` | src/tools/scada_cache_report.cpp:109-183 | what one split line adds, in the current and in the older format |
| `Report.ReadAlarm` | src/tools/scada_cache_report.cpp:144-162 | RAISED enters an alarm, CLEARED removes it, anything else is only counted |
| `ReportOfFile.ReportCounts` | src/tools/scada_cache_report.cpp:97-184 | of any file each counter is the number of lines with enough fields and the right words in them, raised and cleared in both formats |
| `ReportOfFile.ReportLists` | src/tools/scada_cache_report.cpp:143-183 | of any file the report lists a key exactly if the last line about it that says RAISED or CLEARED says RAISED, and shows the columns of that line, in both formats |
| `ReportOfFile.ReportTables` | src/tools/scada_cache_report.cpp:111-142 | of any file the report shows under a key the columns of the last measurement with it, in both formats |
| `ReportOfFile.MeasureText` | src/scada/DataCache.cpp:63-81 | the text of a measurement's line, field after field |
| `ReportOfFile.BusinessText` | src/scada/DataCache.cpp:94-106 | the text of a business line, field after field |
| `ReportOfFile.AlarmText` | src/scada/DataCache.cpp:109-124 | the text of an alarm line, field after field, with RAISED or CLEARED |
| `ReportOfFile.QualityWritten` | src/scada/DataPoint.cpp:92-121 | a quality is the names of its set bits from the most significant on, joined by commas, or good |
| `Acquisition.ScadaSystem.PointDefinitionFor` | src/scada/ScadaSystem.cpp:268-280 | the first configured point with the address, or a fallback of unknown type |
| `Acquisition.ScadaSystem.AttachDevice` | src/scada/ScadaSystem.cpp:53-62 | every event gets the device's identifier and name, and nothing else changes |
| `Acquisition.ScadaSystem.OnDataObject` | src/scada/ScadaSystem.cpp:156-183 | the worker's critical section: new snapshot, new alarm state of that device alone, and the batch to be written after it |
| `WrittenBatches.SenseWrites` | src/scada/ScadaSystem.cpp:179-197 | after an object the worker has to write, in order: the business record into the window and as a line, the measurement as latest value and as a line, then the alarm lines in the order of the rules; each is told field by field |
| `WrittenBatches.PatrolWrites` | src/scada/ScadaSystem.cpp:236-265 | every line the monitor has to write is a STALE event of a configured point, with device, name, severity, time and message |
| `Acquisition.ScadaSystem.WriteBatch` | src/scada/ScadaSystem.cpp:185-192 | the worker's writes, in their order and each with its own flush timing, are the operations of its batch |
| `Acquisition.ScadaSystem.WriteAlarms` | src/scada/ScadaSystem.cpp:261-264 | alarm events are written in order, one line each, each with its own flush timing |
| `Acquisition.ScadaSystem.PatrolDevice` | src/scada/ScadaSystem.cpp:246-257 | one staleness test per configured point of a device, in order |
| `Acquisition.ScadaSystem.MonitorPass` | src/scada/ScadaSystem.cpp:241-259 | the monitor's critical section takes every device from its own state through its own tests |
| `AcquisitionProperties.PassChained` | src/scada/ScadaSystem.cpp:244-258 | over a whole pass each rule's events lead from its old to its new state, and only STALE changes |
| `AcquisitionProperties.OwnedKept` | src/scada/ScadaSystem.cpp:185-192 | under every step a worker's pending batch stays about its own device, and the monitor's about STALE only |
| `Interleavings.StepKeepsView` | src/scada/ScadaSystem.cpp:176-192 | one atomic step, seen by one rule, keeps conservation and order |
| `Interleavings.AlarmConservation` | src/scada/ScadaSystem.cpp:156-265 | under any interleaving, raised minus cleared over everything appended or pending is 1 for an active rule and 0 otherwise |
| `Interleavings.LogFollowsRules` | src/scada/ScadaSystem.cpp:185-192 | under any interleaving the log of a rule other than STALE alternates, and ends in the rule's state once the batch is written |
| `Interleavings.OrderlyLogFollowsRules` | src/scada/ScadaSystem.cpp:259-264 | the same of STALE in runs that write every batch before the next critical section on the device |
| `SnapshotProperties.RulesFollowSnapshots` | src/scada/ScadaSystem.cpp:156-183 | between critical sections of any interleaving the active rules other than STALE are a function of definition and snapshot, and none without one |
| `SnapshotProperties.StaleExactly` | src/scada/ScadaSystem.cpp:250-251 | rounded to whole seconds, an age exceeds a limit of zero or more exactly from limit + 1 seconds on; also stated for negative limits |
| `SnapshotProperties.StaleCallsSettle` | src/scada/ScadaSystem.cpp:246-257 | the tests of one device settle STALE of each of its points and of nothing else |
| `SnapshotProperties.PassPerDevice` | src/scada/ScadaSystem.cpp:244-258 | a pass brings each device to the state its own tests lead to |
| `SnapshotProperties.PassIsPatrol` | src/scada/ScadaSystem.cpp:244-258 | the events of the program's pass are those of the monitor's step in the interleavings |
| `SnapshotProperties.PatrolSettlesStale` | src/scada/ScadaSystem.cpp:236-258 | right after a pass STALE of a configured point is active if and only if it has no snapshot or one at least limit + 1 seconds old |
| `SnapshotProperties.SenseClearsStale` | src/scada/AlarmManager.cpp:86 | fresh data clears STALE |
| `SnapshotProperties.LatestEqualsSnapshots` | src/scada/DataCache.cpp:60-92 | with nothing of a device in flight, the cache's latest value of each of its points is its snapshot |
| `SnapshotProperties.LatestMapIsSnapshots` | src/scada/DataCache.cpp:83-92 | with nothing in flight at all, the two maps are equal |
| `SnapshotProperties.DevicesAreIsolated` | src/scada/ScadaSystem.cpp:178-183 | a step of one device changes no snapshot, cached value, alarm state or pending batch of another |
| `EndToEnd.LineUnderstood` | src/tools/scada_cache_report.cpp:109-183 | every line the cache writes is read as what it was written from; the older formats are never taken for one |
| `EndToEnd.ReplayActive` | src/tools/scada_cache_report.cpp:143-162 | an alarm is active in the report if and only if the last line with its key says RAISED |
| `EndToEnd.ReportKeyExactly` | src/tools/scada_cache_report.cpp:145 | the report's key confuses two rules exactly if their device identifiers become equal when cleaned |
| `EndToEnd.FileIsEndOfHistory` | src/scada/DataCache.cpp:164-202 | after any run from an empty file the file is the rendering of the end of the history, of at least min(n, M) and at most M + 1 entries |
| `EndToEnd.ReportMatchesAlarms` | src/tools/scada_cache_report.cpp:143-162 | in any interleaved run, once the device's batch is written, the report lists a rule other than STALE exactly if the alarm manager has it active and the file still has a line about it; untrimmed, exactly if it is active |
| `EndToEnd.OrderlyReportMatchesAlarms` | src/tools/scada_cache_report.cpp:143-162 | the same of every rule, STALE included, in orderly runs |
| `ReportedValues.ReplayShown` | src/tools/scada_cache_report.cpp:111-126 | the report shows under a key the last measurement written with it |
| `ReportedValues.ReportMatchesSnapshots` | src/tools/scada_cache_report.cpp:111-126 | in any interleaved run, once the device's batch is written, the report shows of a point its snapshot if the file still has a measurement, and nothing otherwise |
| `WireToReport.SnapshotIsLastDelivered` | src/scada/ScadaSystem.cpp:163-180 | a point's snapshot shows the last object its client delivered for it, and there is none before one was, in any interleaving |
| `DeliveredValues.SnapshotShowsWire` | src/scada/ScadaSystem.cpp:155-176 | after any run a point has a snapshot exactly if an object was delivered for it, and it shows value, state, quality and type of the last one, its device, the name, unit and type of the first point configured with the address, and the time of the step that sensed it |
| `DeliveredValues.StateFollowsWire` | src/scada/AlarmManager.cpp:72-84 | after any run STATE of a digital point is active exactly if the last delivered state is not its normal state |
| `DeliveredValues.LimitsFollowWire` | src/scada/AlarmManager.cpp:36-70 | after any run the limit rules of a point compare the last delivered number with its limits |
| `DeliveredValues.QualityFollowsWire` | src/scada/AlarmManager.cpp:26-33 | after any run DATA_QUALITY is active exactly if the last delivered object was invalid or blocked |
| `WireToReport.ReportShowsLastDelivered` | src/tools/scada_cache_report.cpp:111-126 | once the device's batch is written, the report shows of a point the last object delivered for it if the file still has a measurement, and nothing otherwise |
| `DeliveredValues.ReportShowsWire` | src/tools/scada_cache_report.cpp:111-126 | from an untrimmed file the report shows the last delivered object column by column, with the time of its sensing |
| `WireToReport.ReportShowsRun` | src/iec104/Iec104Client.cpp:146-150 | the same of the objects delivered over all attempts of a client, from an untrimmed file |
| `WireToReport.ReportShowsLastEncoded` | src/mock/MockIec104Server.cpp:297-328 | from process to report: when nothing is in flight and nothing went out behind a torn answer, an untrimmed file shows of each point the last object the mock encoded for it |
| `ReportedValues.StaleCanBeReportedFalsely` | src/scada/ScadaSystem.cpp:259-264 | for every configured point there is a run after which nothing is pending, STALE is off, and the report still lists it, because the monitor's batch was written after the worker's |
| `ReportedValues.ReportedRightlyExactly` | src/tools/scada_cache_report.cpp:146-162 | a corollary about the file alone: with nothing pending and nothing trimmed, any rule is reported rightly if and only if its last line is RAISED just when RAISED lines outnumber CLEARED lines |
| `StaleReports.StaleReportedExactly` | src/scada/ScadaSystem.cpp:259-264 | with nothing pending, and a line about it in the file or none trimmed, STALE of a point is reported rightly if and only if the thread that wrote about it last is the one that changed it last, or the monitor's last change cleared it |
| `StaleReports.MonitorOnlyRaises` | src/scada/ScadaSystem.cpp:246-254 | with distinct addresses and a clock that does not run backwards the monitor never clears STALE, in any interleaving |
| `StaleReports.StaleReportedBySchedule` | src/scada/ScadaSystem.cpp:236-265 | then STALE is reported rightly if and only if the thread that wrote about it last is the one that changed it last |
| `Configuration.OrdersAreStrict` | src/common/Config.cpp:238-240 | the byte-wise order of strings and the order of integers are strict and total, as traversal of the maps needs |
| `Configuration.TextLessExactly` | src/common/Config.cpp:239-240 | a text is less than another iff the first place where they differ says so, or it is a beginning of it |
| `Configuration.KeysInOrder` | src/common/Config.cpp:136-145 | traversing a map visits every key once, in ascending order |
| `ConfigLoading.TargetIsProper` | src/common/Config.cpp:164-190 | no line files anything under an empty device identifier or a zero address |
| `ConfigLoading.LinesKeepFiled` | src/common/Config.cpp:245-298 | after any lines every point is filed under its own address and every device under its own identifier, and points belong to known devices |
| `ConfigLoading.PointMapToVector` | src/common/Config.cpp:136-145 | exactly the points of the map, ascending by non-zero address, each with a name |
| `ConfigLoading.NormalizePointNames` | src/common/Config.cpp:128-134 | only empty names are replaced, by the address |
| `ConfigLoading.Assemble` | src/common/Config.cpp:306-327 | a device of the result is its entry with its own points and a non-empty name |
| `ConfigLoading.ListDevices` | src/common/Config.cpp:320-328 | exactly the devices of the map, ascending by identifier |
| `ConfigLoading.ApplyDeviceAttribute` | src/common/Config.cpp:147-194 | a device line updates the one target its key resolves to, creating the device from the current global options |
| `ConfigLoading.ApplyPointLine` | src/common/Config.cpp:176-190 | a point line of a device updates one attribute of one point, or nothing if the address is missing or zero |
| `ConfigLoading.ApplyLegacyLine` | src/common/Config.cpp:279-294 | a point line without device updates one attribute of one point, or nothing |
| `ConfigLoading.ApplyLine` | src/common/Config.cpp:264-297 | the chain of key tests updates exactly the resolved target |
| `ConfigLoading.ReadLines` | src/common/Config.cpp:244-298 | the loading loop is the fold of the lines |
| `ConfigLoading.Load` | src/common/Config.cpp:226-331 | the result is the folded options with the listings of the folded maps, or the built-in points and device where none were given |
| `ConfigLoading.LoadFile` | src/common/Config.cpp:232-236 | a file that cannot be opened loads what an empty file loads |
| `ConfigMeaning.TrimExactly` | src/common/Config.cpp:16-21 | trimming takes the blanks off both ends and nothing else |
| `ConfigMeaning.LineReadExactly` | src/common/Config.cpp:245-262 | a line is read as a key and a value iff it is spelled from them with blanks around, the first equals sign between and perhaps a comment behind |
| `ConfigMeaning.LineIgnoredExactly` | src/common/Config.cpp:245-259 | exactly the lines without an equals sign in front of their comment say nothing |
| `ConfigMeaning.TruthExactly` | src/common/Config.cpp:59-68 | 1, true, yes and on are true, 0, false, no and off are false, in any case and with blanks around; anything else keeps the old value |
| `ConfigFields.PointLine` | src/common/Config.cpp:176-190 | a line device.<id>.point.<number>.<field> sets that field of that point of that device, all fields written out; device and point are created if missing, and everything else stays |
| `ConfigFields.DeviceLine` | src/common/Config.cpp:147-193 | a line device.<id>.<attribute> sets that attribute of that device and nothing else |
| `ConfigFields.LegacyLine` | src/common/Config.cpp:279-294 | a line point.<number>.<field> sets that field of that point of the list without device and nothing else |
| `ConfigFields.OptionLine` | src/common/Config.cpp:264-276 | any other line sets the one global option that its key names, or nothing |
| `ConfigFields.MalformedLines` | src/common/Config.cpp:153-183 | what lines do whose keys lack an identifier, a field or a readable address |
| `ConfigFields.LastPointLine` | src/common/Config.cpp:88-108 | after a last line about a field of a point the loaded configuration has that point, and it is what the lines before made of it with that one field set, all fields written out, under its address if it has no name |
| `ConfigFields.LastDeviceLine` | src/common/Config.cpp:69-87 | after a last line about a device the loaded device is what the lines before made of it, with that attribute set |
| `ConfigFields.LastOptionLine` | src/common/Config.cpp:264-297 | after a last line about a global option the loaded options are those of the lines before with that option set |
| `ConfigLoading.LoadedShape` | src/common/Config.cpp:300-330 | every loaded configuration has devices strictly ascending by non-empty identifier and, in each, points strictly ascending by non-zero address with non-empty names |
| `ConfigSwap.UpdatesCommute` | src/common/Config.cpp:264-297 | assignments to different targets commute in every state unless one is a global client option and the other a device line |
| `ConfigSwap.EntangledExactly` | src/common/Config.cpp:164-193 | that pair commutes in a state if and only if the device exists already, or the option changes nothing, or the device line overrides that very option |
| `EntangledLines.EntangledLinesExactly` | src/common/Config.cpp:244-330 | a global option line and an adjacent device line may change places in a file if and only if the device is known from the lines before, or the option changes nothing there, or the device line itself or any line after both overrides it for the device |
| `ConfigSwap.AscendingUnique` | src/common/Config.cpp:300-328 | a listing in ascending order leaves no choice |
| `ConfigSwap.AdjacentLinesSwap` | src/common/Config.cpp:244-330 | swapping two independent adjacent lines anywhere in a file loads the same configuration |
| `Startup.CreateContexts` | src/scada/ScadaSystem.cpp:95-101 | every enabled device, and no other, gets a context with an alarm manager of its own |
| `Startup.Build` | src/scada/ScadaSystem.cpp:91-106 | the system before its first start: nothing known, nothing in alarm, the cache limited as configured |
| `Startup.EnabledComeFrom` | src/scada/ScadaSystem.cpp:95-101 | the devices that run are exactly the enabled ones, with their identifiers, names and points |
| `Startup.LoadedRunsValid` | src/common/Config.cpp:320-330 | every loaded configuration meets the conditions of the theorems about interleavings: different device identifiers and, in each device, different addresses |

## Left out

- Mock.MockIec104Server.ServeTurn: a failed send of data ends the server's session, so how much of it got out is modelled as a cut of the channel and not as octets of its own.
- LinkComposition.DeliveredIsPrefix: gaps in N(S) are not detected, because the client does not check that numbers are consecutive; likewise no window of unacknowledged frames is claimed for the server, which enforces none.
- Session.Iec104Client.Stop: one thread starts and stops a client; calls of start and stop that overlap are not modelled.
- Session.Iec104Client.RunAttempt: the wait before a reconnect produces no effect and is left out.
- Transport.ReadApduMock: the server's own copies of the two transfer loops are identical to the client's, and one model serves both.
- Cache.DataCache.AppendText: a line reaches the file as a whole before or after the trim; the partial flush of a line longer than the stream's buffer is not modelled, and opening the file always succeeds.
- CacheProperties.LineRoundTrip: fields are taken to contain no line break, which holds for everything that comes from a line of the configuration file; the file is a sequence of lines.
- Acquisition.ScadaSystem.OnDataObject: the conversion of a float's four octets to a double is a parameter.
- ConfigLoading.Load: number parsing is a parameter that may fail; integers are not bounded by the width that parsing allows.
- Connecting, name resolution, select and the platform layer: replaced by outcomes of attempts and turns.
- Random and sine values and the named scenarios of the mock server: values of a tick are inputs; only the quiet phase and the link drop are kept.
- Logging, frame descriptions, hexadecimal dumps, type and cause names, argument handling and the report's printed page: presentation only.
- `onConnectionChanged` and `recordCount`: they only produce log text.
- The probe tool: a near copy of the client's reader with counters.
