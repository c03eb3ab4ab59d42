# Verification of a sans-I/O Bluetooth Classic stack

A Dafny model of the stack's protocol logic, and proofs about it. Each layer is a set of functions on the state of
its objects, which say what every operation does, and classes with the fields, loops and early exits of the original
whose methods are proved to compute those functions. The theorems are about the functions: single codecs in both
directions, invariants of one object under arbitrary input, and whole runs of two parties.

| layer | files |
|---|---|
| bytes, results | `Bytes` |
| Enhanced Retransmission Mode | `Ertm` (one engine), `ErtmProcessor` (the object), `ErtmStream`, `ErtmLink`, `ErtmQuiescence`, `ErtmBound`, `ErtmStall`, `ErtmLift` |
| frame check sequence, signaling codec | `Fcs`, `Signaling` |
| channel manager | `Channels`, `ChannelProcessor` (the object), `ChannelLifecycle`, `ChannelAgreement`, `ChannelQueue` |
| two managers | `Conversation` (who talks to whom), `HandshakeMessages`, `Handshake`, `HandshakeSafety` (basic mode), `EnhancedLink`, `EnhancedSafety` (enhanced mode), `ChannelOpening` (both) |
| ACL data path | `Hci`, `AclFlow`, `AclCredits` (the object), `Framer` |
| host | `Host`, `HostProcessor` (the object), `HostCalls`, `HostDelivery` |
| service discovery | `SdpElement`, `SdpPdu`, `SdpService`, `SdpQuery`, `SdpRuntime` (the objects) |
| session, adapter identity | `Session`, `SessionAdmission`, `SessionProcessor` (the object), `Identity` |

The main results, hardest first:

- `ErtmLink.Safety`: two engines over lossy FIFO links deliver exact prefixes, in every run, for every window size.
- `HostDelivery.EndToEnd` and `HostDelivery.AllDelivered`: SDUs sent on a channel of one host arrive at the other
  through encoding, cutting, credits, reassembly, decoding and dispatch. The proof refines `HandshakeSafety.TwoManagers`:
  the packets between two hosts stand for the PDUs in the queues between two managers.
- `EnhancedSafety.EnhancedChannelIsSafe`: enhanced channels between two managers from their creation, with or without
  the check sequence, opened, used and closed in any order beside any other channels, over links that lose PDUs. The
  proof shows who talks to whom (`Conversation`), lets each channel stand for two engines, and uses `ErtmLink.Safety`.
- `ChannelOpening.EveryOrderOpens`: without losses, and in every order of calls and deliveries, channels whose ends agree
  open at both.
- `HandshakeSafety.TwoManagers`: any number of channels, opened from both sides, handshakes and data interleaved.
- `SdpQuery.ClientRefinesQuery`: exactly when the client's rounds amount to asking the database.
- `ErtmQuiescence.Quiescence` and `ErtmQuiescence.RelayTerminates`: without losses everything is delivered; `ErtmBound.EmissionBound`.
- `SdpElement.RoundTripInContext`, `Fcs.DamageIsRejected`, `Framer.SplitIndependence`, `Hci.InterleavedRoundTrip`.
- `ChannelLifecycle`, `AclFlow.CreditConservation`, `SessionAdmission` and `Identity`: every run against an arbitrary peer,
  controller or adapter.

Four promises turn out to hold only under a condition, which is stated as an if and only if, with an input that
breaks them: a connection request for a PSM of more than sixteen bits does not survive the wire although the validator
accepts it (`Signaling.SignalingRoundTrip`, `Signaling.WidePsmIsLost`); a service record with a value nested 31 or 32
deep is encoded by the server but cannot be read by the client, whose parser meets two further levels
(`SdpQuery.ClientRefinesQuery`, `SdpQuery.NestingLimit`, `SdpQuery.DeepValueIsLost`); packets of fewer than four bytes
cannot be reassembled (`Hci.ReassemblesExactlyFromFour`); clearing a handle can leave other handles' packets waiting beside
free credits (`AclFlow.ClearSettlesExactly`, `AclFlow.ClearLeavesWaiting`). One does not hold at all: over a link that
loses frames an engine does not always make progress, because losing the frame that ends a busy period stops the data until
the peer's user reports another change (`ErtmStall.StuckForever`, `ErtmStall.StallIsReachable`, `ErtmStall.ChangeRecovers`).

Integers are unbounded and every width that matters is written out: sequence numbers modulo 64, sixteen-bit lengths
that wrap, 128-bit accumulators, saturating clocks. Byte strings are sequences of numbers below 256. History that the
proofs need (unwrapped counters, what was sent and taken) is carried along and never read by an operation.

## Model

| member | source | states |
|---|---|---|
| `Ertm.ControlRoundTrip` | src/l2cap/ertm.rs:78-129 | encoding succeeds exactly for sequence numbers below 64, and what it writes decodes to itself, whatever body follows |
| `Ertm.DecodeThenEncode` | src/l2cap/ertm.rs:78-129 | any two bytes decode to a field in range, and an information field encodes back to the same two bytes |
| `Ertm.DistanceIsExact` | src/l2cap/ertm.rs:645-651 | for unwrapped counters less than 64 apart, the distance of their sequence numbers is their real distance |
| `Ertm.FrameEncodings` | src/l2cap/ertm.rs:196-210 | what is emitted for a segment decodes to its sequence number, acknowledgment, segmentation flag and body |
| `Ertm.ReceiveKeepsConfig` | src/l2cap/ertm.rs:306-363 | no received frame changes an engine's configuration |
| `ErtmStream.PrefixReassembles` | src/l2cap/ertm.rs:265-304 | every prefix of the segments of any SDUs reassembles without an error to a prefix of the SDUs, and all the segments to all of them |
| `ErtmStream.FurtherReassembles` | src/l2cap/ertm.rs:423-480 | the segments of one more SDU, taken in after whole SDUs, complete that SDU exactly when the last one is in |
| `ErtmLink.Safety` | src/l2cap/ertm.rs:265-363 | in every run of two engines over links that lose frames but keep their order, whatever is sent, dropped, ticked or made busy, what has arrived at each side is an exact prefix of what was submitted at the other, for every window size from 1 to 63, and no acknowledgment or reassembly error is ever raised |
| `ErtmLink.ActKeeps` | src/l2cap/ertm.rs:265-585 | each send, delivery, loss, tick, busy change and read keeps the invariant relating both windows, both unwrapped counters and every frame in flight |
| `ErtmLink.ReceiveKeeps` | src/l2cap/ertm.rs:306-363 | a frame taken from the head of the link, whatever was lost before it, keeps the invariant and raises no reassembly or acknowledgment error |
| `ErtmLink.AcknowledgeKeeps` | src/l2cap/ertm.rs:495-516 | an acknowledgment in flight always names a frame of the current window, and removes exactly the frames it acknowledges |
| `ErtmLink.AcceptReceives` | src/l2cap/ertm.rs:423-480 | a new in-sequence frame extends the delivered stream by exactly its segment |
| `ErtmLink.DropKeeps` | src/l2cap/ertm.rs:395-401 | losing any frame in flight keeps the invariant |
| `ErtmQuiescence.Quiescence` | src/l2cap/ertm.rs:306-363 | in a run without losses, ticks and busy changes nothing ever fails, and whenever both links are empty every SDU has been delivered and both windows and both pending queues are empty |
| `ErtmQuiescence.RelayTerminates` | src/l2cap/ertm.rs:495-605 | relaying terminates in any order of deliveries: each delivery decreases a measure of the work left |
| `ErtmQuiescence.EmptyLinksMeanDone` | src/l2cap/ertm.rs:518-536 | nothing in flight means nothing pending and nothing unacknowledged |
| `ErtmBound.EmissionBound` | src/l2cap/ertm.rs:518-585 | with a nonzero retransmission limit m, no information frame is emitted more than m + 1 times in any run; the frames counted are the ones queued, each carrying its serial number modulo 64 |
| `ErtmBound.LimitTripsExactly` | src/l2cap/ertm.rs:538-559 | a retransmission fails the engine exactly when some outstanding frame was already emitted m + 1 times |
| `ErtmBound.FailedIsFinal` | src/l2cap/ertm.rs:625-643 | a failed engine stays failed, emits nothing and changes nothing but what the application reads from it |
| `ErtmBound.FailedForever` | src/l2cap/ertm.rs:625-643 | over a whole run, nothing is emitted after the failure |
| `ErtmStall.StaysStuck` | src/l2cap/ertm.rs:306-393 | while a side takes its peer for busy and nothing in flight could tell it otherwise, every send, delivery, loss, tick, read and change of its own busy state leaves it so, delivers nothing to the peer and emits no information frame |
| `ErtmStall.BusyEndsExactly` | src/l2cap/ertm.rs:341-361 | a side stops taking its peer for busy if and only if a supervisory frame other than receiver-not-ready arrives |
| `ErtmStall.StuckForever` | src/l2cap/ertm.rs:306-393 | in any run, such a side stays so, delivering and emitting nothing further, for as long as the peer's user reports no change of its busy state |
| `ErtmStall.RecoveryNeedsChange` | src/l2cap/ertm.rs:365-380 | whatever ends such a stall was preceded by a report of a change from the peer's user |
| `ErtmStall.ChangeRecovers` | src/l2cap/ertm.rs:365-380 | a report does end it, if neither side has failed and what is then in flight arrives |
| `ErtmStall.StallIsReachable` | src/l2cap/ertm.rs:365-393 | for any two compatible engines and any SDU, five moves from the start, with one frame lost, lead there with the SDU undelivered |
| `ErtmLift.ReceiveLifts` | src/l2cap/ertm.rs:306-363 | receiving a frame does not depend on what the engine has queued or handed over |
| `ErtmProcessor.ErtmEngine.constructor` | src/l2cap/ertm.rs:243-263 | a new engine has empty queues, zero counters and no deadline |
| `ErtmProcessor.ErtmEngine.SendSdu` | src/l2cap/ertm.rs:265-304 | segments, numbers and queues the SDU, then transmits what the window allows, or refuses an SDU that is too long |
| `ErtmProcessor.ErtmEngine.QueueChunks` | src/l2cap/ertm.rs:276-300 | the segmentation loop queues exactly the segments of the SDU |
| `ErtmProcessor.ErtmEngine.ReceiveFrame` | src/l2cap/ertm.rs:306-363 | decodes, acknowledges, then treats information and supervisory frames as the specification of one received frame says |
| `ErtmProcessor.ErtmEngine.ReceiveInformation` | src/l2cap/ertm.rs:318-340 | accepts the expected frame, rejects any other, and acknowledges |
| `ErtmProcessor.ErtmEngine.ReceiveSupervisory` | src/l2cap/ertm.rs:341-361 | retransmits all, one or nothing, as the function, poll and final bits say |
| `ErtmProcessor.ErtmEngine.SetReceiverBusy` | src/l2cap/ertm.rs:365-380 | reports the change to the peer, and nothing when nothing changed |
| `ErtmProcessor.ErtmEngine.Tick` | src/l2cap/ertm.rs:382-393 | advances the clock and retransmits once the deadline has passed |
| `ErtmProcessor.ErtmEngine.PollOutbound` | src/l2cap/ertm.rs:395-397 | removes and returns the oldest outgoing frame |
| `ErtmProcessor.ErtmEngine.PopReceived` | src/l2cap/ertm.rs:403-405 | removes and returns the oldest received SDU |
| `ErtmProcessor.ErtmEngine.AcceptInformation` | src/l2cap/ertm.rs:423-480 | extends or completes the SDU being received, or resets it with the error the segmentation rules call for |
| `ErtmProcessor.ErtmEngine.CheckPartialLength` | src/l2cap/ertm.rs:482-493 | an SDU that has grown past its announced length is dropped with an error |
| `ErtmProcessor.ErtmEngine.Acknowledge` | src/l2cap/ertm.rs:495-516 | the window loop removes exactly the acknowledged frames, or refuses an acknowledgment outside the window |
| `ErtmProcessor.ErtmEngine.ProcessOutput` | src/l2cap/ertm.rs:518-536 | the output loop transmits as many pending frames as the window has room for, in order |
| `ErtmProcessor.ErtmEngine.RetransmitAll` | src/l2cap/ertm.rs:538-559 | the retransmission loop sends the whole window again in order, or fails the engine at the limit |
| `ErtmProcessor.ErtmEngine.RetransmitOne` | src/l2cap/ertm.rs:561-585 | sends again the one frame with that sequence number |
| `ErtmProcessor.ErtmEngine.SendSupervisory` | src/l2cap/ertm.rs:587-605 | queues the frame with the current acknowledgment and records that it was given |
| `ErtmProcessor.ErtmEngine.RefreshDeadline` | src/l2cap/ertm.rs:613-618 | a deadline runs exactly while something is unacknowledged |
| `Fcs.ShiftEight` | src/l2cap/mod.rs:201-214 | the bit loop computes eight steps of the shift register |
| `Fcs.Crc16` | src/l2cap/mod.rs:201-214 | the byte loop computes the CRC that the proofs reason about |
| `Fcs.ShiftLinear` | src/l2cap/mod.rs:201-214 | the register's step is linear over exclusive or |
| `Fcs.RegisterInjective` | src/l2cap/mod.rs:201-214 | over any message, different registers stay different |
| `Fcs.VerifiesExactlyWhenClear` | src/l2cap/classic.rs:937-953 | a frame verifies exactly when the CRC over its header and all of it is zero |
| `Fcs.AppendThenVerify` | src/l2cap/classic.rs:926-953 | appending succeeds exactly for frames of at most 65533 bytes, and verification then gives the frame back |
| `Fcs.VerifiedWasAppended` | src/l2cap/classic.rs:926-953 | whatever verifies is what appending makes of the payload it yields |
| `Fcs.DamageIsRejected` | src/l2cap/classic.rs:937-953 | any change confined to two adjacent bytes of a valid frame of any length is rejected |
| `Fcs.SingleByteErrorsAreDetected` | src/l2cap/classic.rs:926-953 | altering any one byte of payload or FCS is rejected |
| `Signaling.PduRoundTrip` | src/l2cap/mod.rs:260-290 | a basic PDU survives the wire if and only if its payload fits the sixteen-bit length |
| `Signaling.SerializePsm` | src/l2cap/mod.rs:218-227 | the PSM loop writes the low sixteen bits and then the nonzero higher bytes |
| `Signaling.PsmRoundTrip` | src/l2cap/mod.rs:218-244 | a valid PSM is read back modulo sixteen bits, so exactly those of at most sixteen bits are kept |
| `Signaling.WidePsmIsLost` | src/l2cap/classic.rs:955-967 | a PSM that the validator accepts and the wire does not carry |
| `Signaling.EncodeConfigurationOptions` | src/l2cap/mod.rs:935-946 | the option loop encodes any list, whatever the types, or refuses it exactly when some value is too long |
| `Signaling.DecodeConfigurationOptions` | src/l2cap/mod.rs:948-971 | the option loop decodes exactly the options that make up the bytes, or reports what is cut off |
| `Signaling.OptionsRoundTrip` | src/l2cap/mod.rs:935-971 | what is encoded is always accepted, and is read as the same list if and only if every type has seven bits |
| `Signaling.OptionsBytesRoundTrip` | src/l2cap/mod.rs:935-971 | every accepted byte string is the encoding of what it decodes to: lists and bytes correspond one to one |
| `Signaling.SignalingRoundTrip` | src/l2cap/mod.rs:507-888 | every signaling frame with a valid PSM decodes to itself if and only if its PSM fits sixteen bits, its code is not a reassigned one and its payload fits the length field |
| `ChannelLifecycle.PerformIsGood` | src/l2cap/classic.rs:242-870 | every call and every PDU, whatever its bytes, keeps every channel well formed and moves it only forward |
| `ChannelLifecycle.ChannelsOnlyMoveForward` | src/l2cap/classic.rs:430-765 | in any run, no channel is forgotten, no CID is reused, and no state is ever revisited |
| `ChannelLifecycle.OpenMeansConfigured` | src/l2cap/classic.rs:836-850 | at every moment of any run an open channel is configured in both directions and has an engine exactly in the enhanced mode, and every peer MTU is at least 48 |
| `ChannelLifecycle.AnnouncedWhenOpened` | src/l2cap/classic.rs:836-850 | at any moment of any run, only an incoming channel that opened in that step and was not announced before is announced |
| `ChannelLifecycle.AnnouncedOnce` | src/l2cap/classic.rs:836-850 | no channel is announced twice in a run |
| `ChannelLifecycle.VerdictKeeps` | src/l2cap/classic.rs:576-713 | whatever options arrive, the channel stays well formed and building its engine never fails |
| `ChannelLifecycle.NegotiateKeeps` | src/l2cap/classic.rs:590-652 | whatever options arrive, a negotiated MTU is legal and accepted engine parameters are usable |
| `ChannelAgreement.AcceptedExactlyWhenAgreed` | src/l2cap/classic.rs:576-713 | a peer's proposal is accepted if and only if both ends have the same mode and the same wish for a check sequence; an accepted one is echoed and sets the channel up with the peer's parameters |
| `ChannelAgreement.AgreedEnginesAreCompatible` | src/l2cap/classic.rs:654-690 | two ends that accept each other run engines with each other's payload sizes and windows, compatible in the sense the link's safety asks for |
| `ChannelAgreement.DisconnectClosesBothEnds` | src/l2cap/classic.rs:430-448 | disconnecting one of two mirrored ends closes both, without an error and without touching any other channel |
| `EnhancedLink.FlushedFrames` | src/l2cap/classic.rs:798-834 | a flush queues the engine's frames in order, each readable by the peer, all of them or up to the first too large for the check sequence |
| `EnhancedLink.SendLinked` | src/l2cap/classic.rs:406-428 | sending on one of two enhanced ends, whatever state it is in and whether or not every frame takes the check sequence, keeps them standing for two engines over a lossy link |
| `EnhancedLink.ElapseLinked` | src/l2cap/classic.rs:328-345 | so does the clock, which runs through all enhanced channels in order until one fails |
| `EnhancedLink.ReceiveOpen` | src/l2cap/classic.rs:372-404 | so does a PDU that arrives at an open end, and its frame is gone from the link |
| `EnhancedLink.LoseLinked` | src/l2cap/classic.rs:319-326 | so does losing any PDU of any channel |
| `EnhancedSafety.ProposalHolds` | src/l2cap/classic.rs:576-713 | so does a proposal that arrives at one of the ends, whether it gives the end its engine or is refused |
| `Conversation.DeliverTalk` | src/l2cap/classic.rs:372-765 | with two managers over lossy links, under any calls: every end names an end that names it back or waits for its answer, no two ends name the same one, and every queued PDU is from an end that names its receiver; whatever PDU arrives, it stays so |
| `Conversation.ConnectTalk` | src/l2cap/classic.rs:293-304 | asking for a connection keeps this |
| `EnhancedSafety.CallSane` | src/l2cap/classic.rs:281-448 | so does every call, and each manager keeps its own invariant |
| `Conversation.LoseTalk` | src/l2cap/classic.rs:319-326 | so does losing any PDU |
| `EnhancedSafety.ActHolds` | src/l2cap/classic.rs:281-448 | any call, delivery or loss, on this channel or any other, opening and closing included, keeps the two enhanced ends of a channel standing for two engines over a lossy link, before, while and after the channel is open |
| `EnhancedSafety.PairUp` | src/l2cap/classic.rs:511-548 | when a manager accepts a request in the enhanced mode, the two ends of the new channel stand for two engines over a lossy link |
| `EnhancedSafety.EveryScheduleRuns` | src/l2cap/classic.rs:281-448 | every schedule of calls, deliveries and losses by two managers is a run: no step needs more than the steps before it give |
| `EnhancedSafety.EnhancedChannelIsSafe` | src/l2cap/classic.rs:281-834 | in every run of two managers from their creation, with any calls on any channels in any order and with PDUs lost: for any two enhanced ends of which one has accepted the request of the other, open or not, what either application has is a prefix of what the other submitted, and PDUs of the channel raised no error but an engine limit, a frame too large for the check sequence, or that the channel is not open |
| `ChannelOpening.AddressReads` | src/l2cap/classic.rs:866-870 | whatever length a signaling frame has, the end it is read to be for is the end it was written for |
| `ChannelOpening.SignalSilent` | src/l2cap/classic.rs:450-509 | a frame that arrives for an end that does not talk to a given end of the peer, and does not introduce the two, makes the manager say nothing to that end |
| `ChannelOpening.RequestReplied` | src/l2cap/classic.rs:511-548 | every connection request is answered |
| `ChannelOpening.AcceptedIsCouple` | src/l2cap/classic.rs:511-548 | a request that finds a server and a free CID makes a channel with two ends, the new one with the specification of the server |
| `ChannelOpening.PduStaged` | src/l2cap/classic.rs:372-765 | whatever PDU arrives, what is on its way to the ends of a channel that agree is exactly, and in order, what they still wait for: the answer, the proposals and the agreements; and an end is open exactly when it has taken the other's proposal and agreement |
| `ChannelOpening.EveryOrderOpens` | src/l2cap/classic.rs:281-850 | in every run of two managers from their creation without losses, with any calls on any channels in any order except closing the two ends: once everything said has arrived, no end still waits for the answer to its request, and two ends of a channel whose specifications agree are both open, in either mode |
| `ChannelProcessor.ChannelManager.constructor` | src/l2cap/classic.rs:208-217 | a new manager has no servers, channels or queued PDUs |
| `ChannelProcessor.ChannelManager.QueueControl` | src/l2cap/classic.rs:866-869 | appends the encoded frame on the signaling CID |
| `ChannelProcessor.ChannelManager.AllocateIdentifier` | src/l2cap/classic.rs:858-864 | identifiers run from 1 to 255 and around, never zero |
| `ChannelProcessor.ChannelManager.AllocateCid` | src/l2cap/classic.rs:852-856 | the search loop finds the lowest dynamic CID that no channel has, if any |
| `ChannelProcessor.ChannelManager.AllocatePsm` | src/l2cap/classic.rs:260-267 | the search loop finds the lowest valid dynamic PSM that no server has, if any |
| `ChannelProcessor.ChannelManager.RegisterServer` | src/l2cap/classic.rs:242-274 | registers a valid, unused PSM, given or found, or changes nothing |
| `ChannelProcessor.ChannelManager.UnregisterServer` | src/l2cap/classic.rs:276-278 | removes the server and says whether there was one |
| `ChannelProcessor.ChannelManager.Connect` | src/l2cap/classic.rs:281-304 | adds a waiting channel under a free CID and requests the connection, or changes nothing |
| `ChannelProcessor.ChannelManager.QueueConfigureRequest` | src/l2cap/classic.rs:767-796 | proposes the channel's MTU and, in the enhanced mode, its parameters |
| `ChannelProcessor.ChannelManager.MaybeOpen` | src/l2cap/classic.rs:836-850 | opens a channel configured in both directions, and announces an incoming one |
| `ChannelProcessor.ChannelManager.ConsiderOptions` | src/l2cap/classic.rs:590-652 | the option loop stops at the first option it refuses |
| `ChannelProcessor.ChannelManager.OnConfigureRequest` | src/l2cap/classic.rs:576-713 | negotiates, answers, builds the engine and opens, or closes the channel |
| `ChannelProcessor.ChannelManager.OnConfigureResponse` | src/l2cap/classic.rs:715-729 | records the acceptance and opens, or closes the channel |
| `ChannelProcessor.ChannelManager.OnConnectionRequest` | src/l2cap/classic.rs:511-548 | accepts with a new channel and proposes its configuration, or refuses |
| `ChannelProcessor.ChannelManager.OnConnectionResponse` | src/l2cap/classic.rs:550-574 | starts configuring a waiting channel, or closes it |
| `ChannelProcessor.ChannelManager.OnDisconnectionRequest` | src/l2cap/classic.rs:731-752 | closes the channel and answers, if the CIDs match |
| `ChannelProcessor.ChannelManager.OnDisconnectionResponse` | src/l2cap/classic.rs:754-765 | closes the channel if the CIDs match |
| `ChannelProcessor.ChannelManager.Disconnect` | src/l2cap/classic.rs:430-448 | asks the peer to close an open channel |
| `ChannelProcessor.ChannelManager.ProcessControl` | src/l2cap/classic.rs:450-509 | each signaling frame goes to its handler |
| `ChannelProcessor.ChannelManager.QueueFrames` | src/l2cap/classic.rs:820-832 | the frame loop queues engine frames in order, with a check sequence where it is on |
| `ChannelProcessor.ChannelManager.FlushErtm` | src/l2cap/classic.rs:798-834 | moves the engine's received SDUs and frames to the channel and the queue |
| `ChannelProcessor.ChannelManager.ProcessPdu` | src/l2cap/classic.rs:372-404 | signaling to its handler, data to the engine or the application of an open channel, an error otherwise |
| `ChannelProcessor.ChannelManager.Send` | src/l2cap/classic.rs:406-428 | through the engine, or as one PDU within the peer's MTU |
| `ChannelProcessor.ChannelManager.SetReceiverBusy` | src/l2cap/classic.rs:347-358 | passes the change to the channel's engine and flushes it |
| `ChannelProcessor.ChannelManager.Tick` | src/l2cap/classic.rs:328-345 | advances every engine in CID order until one fails |
| `ChannelProcessor.ChannelManager.RequestInformation` | src/l2cap/classic.rs:223-230 | queues the request under a new identifier |
| `ChannelProcessor.ChannelManager.PollOutbound` | src/l2cap/classic.rs:319-321 | removes and returns the oldest outgoing PDU |
| `ChannelProcessor.ChannelManager.PollAccepted` | src/l2cap/classic.rs:315-317 | removes and returns the oldest announced channel |
| `HandshakeMessages.RequestEffect` | src/l2cap/classic.rs:511-548 | what a connection request makes of the channels and the queue, accepted or refused |
| `HandshakeMessages.ResponseEffect` | src/l2cap/classic.rs:550-574 | what a connection response makes of its channel and the queue |
| `HandshakeMessages.ProposeEffect` | src/l2cap/classic.rs:576-713 | a proposed MTU is taken over and agreed to, and may open the channel |
| `HandshakeMessages.AgreeEffect` | src/l2cap/classic.rs:715-729 | an agreement may open the channel, and queues nothing |
| `Handshake.LinkStep` | src/l2cap/classic.rs:511-729 | a step of one link between two managers keeps every link, whichever side opened it |
| `HandshakeSafety.DeliverKeeps` | src/l2cap/classic.rs:372-404 | nothing that one manager delivers is rejected by the other, and the delivery keeps the invariant of all links |
| `HandshakeSafety.PerformKeeps` | src/l2cap/classic.rs:293-428 | every registration, connection, send, read and delivery keeps the invariant of all links |
| `HandshakeSafety.TwoManagers` | src/l2cap/classic.rs:372-729 | in every run of two managers over FIFO queues, for any number of channels opened from either side, no delivered PDU is rejected, open ends have mirrored CIDs and the same PSM and know each other's MTU, what arrived is a prefix of what was sent, and a channel that is not open has sent and received nothing |
| `HandshakeSafety.NothingPending` | src/l2cap/classic.rs:836-850 | with both queues empty every channel is open at both ends or was refused, and everything sent has arrived |
| `ChannelQueue.ProcessBehind` | src/l2cap/classic.rs:372-404 | processing a PDU never looks at the outgoing queue and only adds to its end |
| `Hci.PacketRoundTrip` | src/hci.rs:189-206 | every packet the constructors admit decodes from its own bytes |
| `Hci.DecodedWasEncoded` | src/hci.rs:189-206 | whatever decodes is the encoding of what it decodes to |
| `Hci.FragmentsAreValid` | src/hci.rs:208-241 | every packet a PDU is cut into is admissible and within the payload size, and together they carry the PDU |
| `Hci.FeedIsSound` | src/hci.rs:254-299 | for arbitrary packets, pending entries keep at least 4 and fewer than the expected bytes, and only whole PDUs come out |
| `Hci.AclAssembler.Feed` | src/hci.rs:254-299 | appends, completes, replaces or drops the handle's pending PDU as the packet says, and leaves other handles alone |
| `Hci.AclAssembler.ClearHandle` | src/hci.rs:301-303 | forgets what is pending for the handle, and nothing else |
| `Hci.HandlesAreIndependent` | src/hci.rs:254-299 | each handle sees the assembler it would see alone |
| `Hci.ReassemblesExactlyFromFour` | src/hci.rs:208-299 | a cut PDU is reassembled if and only if the payload size is at least 4 |
| `Hci.InterleavedRoundTrip` | src/hci.rs:208-299 | for any interleaving of any handles, a handle that sends its PDUs cut in any sizes from 4 up gets exactly its PDUs, in order, without an error |
| `AclFlow.FlushConserves` | src/classic_host.rs:174-182 | a flush releases packets from the front in order, charges each to its handle, and ends with an empty queue or no credit to spare |
| `AclFlow.CompleteKeeps` | src/classic_host.rs:184-203 | credits come back exactly when no more are returned than are in use, to that handle only |
| `AclFlow.ClearKeeps` | src/classic_host.rs:205-209 | clearing leaves nothing queued or charged to the handle and nothing else changed |
| `AclFlow.CreditConservation` | src/classic_host.rs:156-209 | over any interleaving of enqueue, flush, complete and clear: never more in flight than the limit, each handle charged exactly what it flushed less what was completed since its last clear, and packets leaving in the order of a plain queue |
| `AclFlow.ClearSettlesExactly` | src/classic_host.rs:205-209 | after a flush, clearing a handle leaves nothing waiting beside a free credit if and only if no other handle has packets queued or the cleared one held no credit |
| `AclFlow.ClearLeavesWaiting` | src/classic_host.rs:170-209 | two packets for two handles and one credit, from a new flow: the clear of the first leaves the second waiting |
| `AclCredits.CreditFlow.constructor` | src/classic_host.rs:157-164 | starts with no packets queued or in flight |
| `AclCredits.CreditFlow.InFlightTotal` | src/classic_host.rs:166-168 | the summing loop adds up every handle's credits |
| `AclCredits.CreditFlow.Enqueue` | src/classic_host.rs:170-172 | appends the packets |
| `AclCredits.CreditFlow.Flush` | src/classic_host.rs:174-182 | the release loop hands over what the specification of a flush says, and appends it to the output |
| `AclCredits.CreditFlow.Complete` | src/classic_host.rs:184-203 | returns credits, or reports an underflow and changes nothing |
| `AclCredits.CreditFlow.ClearHandle` | src/classic_host.rs:205-209 | the retain loop drops exactly the handle's packets |
| `Framer.FramePackets` | src/usb.rs:520-548 | the framing loop frames as many packets as are complete, or drops them with the oversized one |
| `Framer.FramingConserves` | src/usb.rs:520-548 | the framed packets' bytes and the leftover are exactly the bytes received |
| `Framer.OnlyTooLargeFails` | src/usb.rs:520-548 | for arbitrary bytes, nothing but a data packet declaring more than 4095 bytes is an error |
| `Framer.SplitIndependence` | src/usb.rs:520-548 | for arbitrary bytes, every way of cutting them into transfers gives the same packets and leftover, or the same error |
| `Framer.StreamArrives` | src/usb.rs:520-548 | a stream of events, or of data packets of at most 4095 bytes, arrives as exactly those packets however it is cut |
| `Framer.Transport.PollPacket` | src/usb.rs:303-341 | endpoints take turns, and per endpoint what was polled and what waits is, in order, the framing of all bytes read from it |
| `Host.DisconnectionLeavesNothing` | src/classic_host.rs:363-383 | a disconnection is processed if and only if it names the connection's handle, and then leaves nothing queued, in flight, in the output or partly reassembled for it |
| `HostProcessor.ClassicHost.constructor` | src/classic_host.rs:223-233 | starts without a connection |
| `HostProcessor.ClassicHost.EnqueueAll` | src/classic_host.rs:492-501 | the PDU loop cuts and queues each PDU, up to the first that cannot be cut |
| `HostProcessor.ClassicHost.FlushChannels` | src/classic_host.rs:470-510 | sends every queued PDU as far as credits allow and announces opened channels |
| `HostProcessor.ClassicHost.Announce` | src/classic_host.rs:485-491 | the announcement loop reports each accepted channel with its PSM |
| `HostProcessor.ClassicHost.ProcessAcl` | src/classic_host.rs:388-406 | reassembles, decodes, dispatches and flushes, or reports what failed |
| `HostProcessor.ClassicHost.SendChannelSdu` | src/classic_host.rs:408-419 | sends through the manager and flushes |
| `HostProcessor.ClassicHost.ConnectChannel` | src/classic_host.rs:421-434 | connects through the manager, flushes, and returns the channel's CID |
| `HostProcessor.ClassicHost.OnCompleted` | src/classic_host.rs:356-362 | returns credits and releases what they allow |
| `HostProcessor.ClassicHost.Retain` | src/classic_host.rs:370-375 | the retain loop keeps everything but the handle's packets |
| `HostProcessor.ClassicHost.OnDisconnected` | src/classic_host.rs:363-383 | drops everything of the connection and reports its end |
| `HostProcessor.ClassicHost.PopOutput` | src/classic_host.rs:462-464 | removes and returns the oldest output |
| `HostDelivery.FlushSends` | src/classic_host.rs:470-510 | every queued PDU is on its way, in order, behind everything that was already |
| `HostDelivery.CarriesNext` | src/hci.rs:254-299 | a packet that arrives completes the first PDU on its way or is kept, and is never an error |
| `HostDelivery.ArriveKeeps` | src/classic_host.rs:388-406 | no packet that arrives is refused by the assembler, the codec or the manager, and the invariant of both pipelines is kept |
| `HostDelivery.EndToEnd` | src/classic_host.rs:388-510 | in every run of two connected hosts, under any schedule of completed packets and for payload sizes from 4 to 65535, open ends mirror each other, what has arrived is a prefix of what was sent, and no packet is refused |
| `HostDelivery.AllDelivered` | src/classic_host.rs:470-510 | once the air and the outputs are empty and each controller has a credit to spare, everything sent on an open channel has arrived: no packet can then be waiting for credits |
| `SdpElement.SignedRoundTrip` | src/sdp/mod.rs:385-405 | two's complement in 1, 2, 4, 8 or 16 bytes gives every number in range back |
| `SdpElement.BeToU128` | src/sdp/mod.rs:536-542 | the accumulator loop computes the value modulo 128 bits |
| `SdpElement.BeToI128` | src/sdp/mod.rs:545-555 | the sign-extending accumulator loop computes the two's-complement value |
| `SdpElement.Write` | src/sdp/mod.rs:268-319 | the writer, recursive and with a buffer, value bytes first and the size index from their number, computes the encoding |
| `SdpElement.UnsignedToBytes` | src/sdp/mod.rs:364-381 | the loop over the leading bytes refuses exactly the values that do not fit the width |
| `SdpElement.SignedToBytes` | src/sdp/mod.rs:385-405 | the low bytes of the sixteen are the two's complement of the width, for exactly the numbers in its range |
| `SdpElement.WriteItems` | src/sdp/mod.rs:296-319 | the element loop concatenates the elements' encodings, or stops at the first that has none |
| `SdpElement.Parse` | src/sdp/mod.rs:417-532 | the parser, with its moving position and inner loop, computes the specification of parsing, and terminates on any bytes |
| `SdpElement.ReadSpan` | src/sdp/mod.rs:429-462 | the size index and its length bytes give the value's place |
| `SdpElement.ParseLeaf` | src/sdp/mod.rs:475-528 | each type of value is read by its own loop |
| `SdpElement.RoundTripInContext` | src/sdp/mod.rs:268-532 | every encodable element, at any offset inside any bytes, parses to itself and to its exact end if and only if its containers nest within the limit from there |
| `SdpElement.ParserIsSound` | src/sdp/mod.rs:417-532 | on arbitrary bytes a success has consumed something, stays in bounds and nests within the limit |
| `SdpElement.CutElementFails` | src/sdp/mod.rs:417-473 | any element, wherever it stands, is refused when its end is missing |
| `SdpPdu.PduRoundTrip` | src/sdp/pdu.rs:98-260 | each of the seven PDUs decodes from its own bytes if and only if the parameter block fits its length field and the elements nest within the limit |
| `SdpService.SortIsStable` | src/sdp/service.rs:234-235 | the selected attributes are sorted by id and keep their order within an id |
| `SdpService.StableSortIsUnique` | src/sdp/service.rs:234-235 | there is only one such list, so any stable sort gives it |
| `SdpService.ResponseFits` | src/sdp/service.rs:245-483 | no response to any request is longer than the MTU, for every MTU from 11 up |
| `SdpService.SlicesDrain` | src/sdp/service.rs:260-277 | the slices are together the answer, each within the cap, and one or ceil(length / cap) of them |
| `SdpService.AnswerDrains` | src/sdp/service.rs:245-324 | a fresh request and its continuations hand out the stored answer exactly once, in order, and only the last response carries the terminator |
| `SdpQuery.ClientRefinesQuery` | src/sdp/service.rs:568-605 | the client's multi-round result is the direct query, matching records in insertion order with their selected attributes stably sorted and empty lists dropped, if and only if that answer can be encoded, nests within 32 levels and fits 64 slices |
| `SdpQuery.NestingLimit` | src/sdp/service.rs:687-704 | which for the records means values nested at most 30 deep |
| `SdpQuery.DeepValueIsLost` | src/sdp/service.rs:285-324 | a record with a value nested 31 deep that the server encodes and the client cannot read |
| `SdpQuery.GetRefinesRecord` | src/sdp/service.rs:609-644 | the same for one record's attributes, and the error when there is no such record |
| `SdpQuery.SearchRefinesMatching` | src/sdp/service.rs:647-677 | the client finds all matching handles if and only if they are at most 65535 and fit 64 responses |
| `SdpQuery.CollectsAnswer` | src/sdp/service.rs:568-644 | the client collects the whole answer, or its first 64 slices |
| `SdpRuntime.SdpServer.AddService` | src/sdp/service.rs:177-179 | appends the record |
| `SdpRuntime.SdpServer.MatchServices` | src/sdp/service.rs:185-210 | the record loop keeps, in order, the records with any of the UUIDs |
| `SdpRuntime.SdpServer.AnyMatches` | src/sdp/service.rs:198-207 | the UUID loop stops at the first that matches |
| `SdpRuntime.SdpServer.Choose` | src/sdp/service.rs:216-243 | the selector loop collects what each selector asks for, then sorts by id |
| `SdpRuntime.SdpServer.CollectLists` | src/sdp/service.rs:304-314 | the list loop keeps the non-empty lists in order |
| `SdpRuntime.SdpServer.NextPayload` | src/sdp/service.rs:260-277 | hands out the next slice and keeps the rest |
| `SdpRuntime.SdpServer.OnSearchAttribute` | src/sdp/service.rs:285-324 | starts or continues the answer for the matching records |
| `SdpRuntime.SdpServer.OnAttribute` | src/sdp/service.rs:326-369 | starts or continues the answer for one record, or reports that there is none |
| `SdpRuntime.SdpServer.OnSearch` | src/sdp/service.rs:371-434 | starts or continues the list of handles |
| `SdpRuntime.SdpServer.HandleRequest` | src/sdp/service.rs:438-483 | each request goes to its handler, anything else is a syntax error |
| `SdpRuntime.SdpClient.MakeTransaction` | src/sdp/service.rs:558-563 | transaction ids count up and wrap |
| `SdpRuntime.SdpClient.CollectBytes` | src/sdp/service.rs:576-604 | the continuation loop asks, appends and echoes the state, at most 64 times |
| `SdpRuntime.SdpClient.ServiceSearchAttribute` | src/sdp/service.rs:568-605 | computes the result that the refinement speaks about |
| `SdpRuntime.SdpClient.GetAttributes` | src/sdp/service.rs:609-644 | computes the result for one record |
| `SdpRuntime.SdpClient.SearchServices` | src/sdp/service.rs:647-677 | the handle loop computes the result of a search |
| `HostCalls.PduKeepsEngines` | src/l2cap/classic.rs:372-729 | no PDU, whatever its bytes, gives a channel an engine with an unusable configuration |
| `HostCalls.SendGrows` | src/classic_host.rs:408-419 | sending keeps the host valid and only adds to what it has put out |
| `HostCalls.HandleKeeps` | src/classic_host.rs:247-386 | no event, whatever the controller reports, invalidates the host |
| `Session.DrainOneKeeps` | src/session.rs:472-508 | every output of the host is handled once: what is left is shorter, or holds fewer events that can add to it, so draining ends |
| `Session.PlainEventWorks` | src/session.rs:495-503 | opening and serving channels sends nothing by itself, touches no window, connection or rejected handle, and announces no connection |
| `SessionAdmission.PerformIsGood` | src/session.rs:407-845 | every call, every packet with any bytes and every failure of the adapter, in particular a report that could not be sent whole and leaves the session active, announces, accepts, connects and forgets only what the window allows |
| `SessionAdmission.DrainDecides` | src/session.rs:472-508 | an output that decides a connection is handled once, whatever plain output was left before it and follows it |
| `SessionAdmission.AnnouncedIsExpected` | src/session.rs:407-490 | in every run, every connection the application is told of was announced in a step in which a window expected its peer, and that window had been open since the move that named the peer: reconnecting to the only bond, or the first request while pairing |
| `SessionAdmission.ConnectedIsExpected` | src/session.rs:407-490 | in every run, the connection a session has was made in a step in which a window expected its peer in the same way, and has not changed since that step |
| `SessionAdmission.OneAnnouncementPerStep` | src/session.rs:472-490 | no step announces more than one connection |
| `SessionAdmission.OnePeerPerWindow` | src/session.rs:407-424 | within one window no second peer is accepted |
| `SessionAdmission.UnexpectedStep` | src/session.rs:425-440 | an unexpected successful connection is disconnected and remembered, and changes neither host, window nor events |
| `SessionAdmission.SwallowedExactlyWhenRejected` | src/session.rs:452-458 | a disconnection is swallowed if and only if its handle was rejected |
| `SessionAdmission.StrayPacketEndsSession` | src/session.rs:383-405 | a packet about a handle that is not the host's connection changes nothing but to end the session |
| `SessionAdmission.UnexpectedConnectionComesToNothing` | src/session.rs:425-458 | an unexpected connection is disconnected at once, and its disconnection, however much later, reaches neither the host nor the application; if the session lasts that long, no data, authentication or encryption packet about its handle came in between, unless the host's own connection has that handle |
| `SessionProcessor.BackendSession.constructor` | src/session.rs:317-331 | starts idle, active and without a connection |
| `SessionProcessor.BackendSession.Send` | src/session.rs:349-353 | sends one packet, or reports that the adapter failed |
| `SessionProcessor.BackendSession.SendAll` | src/session.rs:349-365 | sends packets in order, up to the first failure |
| `SessionProcessor.BackendSession.EndConnectionWindow` | src/session.rs:367-376 | restores the inquiry response, stops scanning and closes the window |
| `SessionProcessor.BackendSession.EnqueueEvent` | src/session.rs:510-519 | queues the event, or ends the session when the queue is full |
| `SessionProcessor.BackendSession.StartActiveReconnectControl` | src/session.rs:521-536 | connects the control channel of an active reconnection, once |
| `SessionProcessor.BackendSession.OnOpened` | src/session.rs:563-623 | notes an opened channel of a known service, announces it the first time, and connects the next |
| `SessionProcessor.BackendSession.HandleHostEvent` | src/session.rs:476-503 | connects, disconnects, announces and opens as the host's event says |
| `SessionProcessor.BackendSession.DrainHostOutput` | src/session.rs:472-508 | the output loop handles what the host put out, in order, until a failure or nothing is left |
| `SessionProcessor.BackendSession.DispatchEvents` | src/session.rs:460-469 | the event loop passes decoded events to the host, up to the first it refuses |
| `SessionProcessor.BackendSession.HandleEvent` | src/session.rs:407-470 | admits, rejects or swallows, and otherwise passes on |
| `SessionProcessor.BackendSession.RefreshOutgoingChannels` | src/session.rs:538-561 | treats channels this side asked for as opened once they are |
| `SessionProcessor.BackendSession.Apply` | src/session.rs:668-688 | the action loop responds and reports what a service makes of an SDU |
| `SessionProcessor.BackendSession.ServeChannel` | src/session.rs:628-640 | the SDU loop hands every SDU that waits to its service |
| `SessionProcessor.BackendSession.ProcessProtocolInput` | src/session.rs:625-666 | the SDP channels in order, then control, then interrupt |
| `SessionProcessor.BackendSession.HandleAcl` | src/session.rs:383-395 | passes data to the host, drains, refreshes, serves and drains again |
| `SessionProcessor.BackendSession.SendInterruptReport` | src/session.rs:777-791 | sends a report on the open interrupt channel, or says why not, without ending the session |
| `SessionProcessor.BackendSession.BeginPairing` | src/session.rs:696-711 | opens a pairing window from an idle session |
| `SessionProcessor.BackendSession.BeginReconnect` | src/session.rs:713-747 | opens a window for the only bond, or reports why not |
| `SessionProcessor.BackendSession.Disconnect` | src/session.rs:815-825 | hangs up and closes the window |
| `SessionProcessor.BackendSession.Shutdown` | src/session.rs:827-845 | closes once and clears what the session knew |
| `Identity.EverySessionIsClosedOnce` | src/identity.rs:132-244 | however the adapter behaves, every session that was opened is closed exactly once |
| `Identity.RecoveryExactlyAfterWrite` | src/identity.rs:132-244 | an error asks for recovery if and only if the vendor write was attempted |
| `Identity.SuccessIsVerified` | src/identity.rs:132-244 | the rewrite succeeds only after an adapter of the right kind, opened after the write, read the target back; and the address counts as active if and only if the first adapter has it |
| `Identity.AttemptsAreBounded` | src/identity.rs:246-267 | on a clock that the sleeps advance there are at most max(1, ceil(timeout / interval)) attempts to reopen |
| `Identity.Backend.OpenReenumerated` | src/identity.rs:246-267 | the retry loop sleeps and tries until an attempt succeeds or the deadline has passed |
| `Identity.Backend.PrepareIdentity` | src/identity.rs:132-244 | the step sequence with its early exits does what the specification of a preparation says |

## Left out

- USB discovery, endpoint selection and the reader thread; the bytes a transfer delivers are inputs of `Framer.Transport.PollPacket`.
- Controller initialisation scripts, wall-clock waits of `poll` and `drain_interrupt`: fixed command sequences and timeouts over I/O.
- HID records, HIDP dispatch and the CSR byte layout: constant tables; a vendor response is a status in `Identity`.
- LE credit-based signaling: its frames are encoded and decoded in `Signaling`, and no operation acts on them.
- Link keys and pairing are the controller's; the bond store is a map that does not fail.
- Sessions' services: what an SDP server or the HID bridge does with one SDU, and how it encodes a report, are inputs of `Session.Perform`; the servers themselves are `SdpService`.
- The Signaling module: a PSM field of more than four bytes is reported as too long; the original shifts past its integer there.
- The Host module: when a server registered before a connection is invalid, which of the invalid ones is reported is not modelled.
- HandshakeSafety.TwoManagers: basic mode and without disconnections, as are HostDelivery.EndToEnd and HostDelivery.AllDelivered; closing is ChannelAgreement.DisconnectClosesBothEnds.
- EnhancedSafety.EnhancedChannelIsSafe: connection requests for a PSM of more than sixteen bits are excluded (by EnhancedLink.Allowed), because such a request is read as one from another CID (Signaling.WidePsmIsLost); so they are in ChannelOpening.EveryOrderOpens.
- ChannelOpening.EveryOrderOpens: that the queues do become empty is not stated; a call can always queue more.
- ErtmLink.Safety: links keep the order of frames; what it does not say about progress is in ErtmQuiescence and ErtmStall.
- HostDelivery.EndToEnd: each packet the controller takes is carried whole and in order to the peer, under the peer's handle.
