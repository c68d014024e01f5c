# castr in Dafny

A model of the state machines of castr that carry its guarantees, and proofs of those
guarantees. castr moves video over lossy links with two protocols, its own and Miracast,
and shows both on one display. The machines take bytes and a clock and return values;
clocks, thread schedules, driver answers and floating-point rounding are parameters here.

- Loss repair (`Wire`, `Frames`, `Reassembly`, `Integrity`, `Retransmit`, `Repair`): frames
  are cut into numbered datagrams, rebuilt, asked for again and resent. `Repair.EndToEnd`
  joins packetizer, reassembler and retransmit buffer.
- Playout (`Jitter`, `JitterRuns`, `Playout`, `Shuffle`): what the decoder may see and when,
  in Game and Quality mode, whatever the order of arrival.
- Miracast media (`Rtp`, `Reorder`, `ReorderSort`, `Demux`, `DemuxRefinement`, `Tables`,
  `PesLayout`, `PesStream`): RTP (RFC 3550, section 5.1; RFC 2250, section 2), the reordering
  window, and the MPEG-TS demultiplexer (ISO/IEC 13818-1, sections 2.4.3.2 to 2.4.3.7 and
  2.4.4).
- One screen (`Lifecycle`, `Screen`): the sink loop and the castr handler as interleaved
  steps on one arbiter.
- RTSP (`Rtsp`, `RtspStream`, `Negotiation`, `NegotiationRuns`, `Exchange`, `Ladder`):
  printing and parsing (RFC 2326, sections 4, 6, 7 and 12.14), byte streams in pieces, the
  negotiation and what it answers, and the ladder of bitrates asked for.
- The session (`Session`, `SessionRuns`, `OpenGate`, `SessionMedia`, `SessionTalk`) joins
  RTSP to the media path; `SessionTalk.SessionShowsProgram` goes from the first message to
  the last picture.
- V4L2 decoding (`PlaneCopy`, `V4l2Queue`, `V4l2Decoder`): the parallel picture copy, and
  who owns which buffer under a driver that may answer anything.
- Bitrate control and log naming (`Bitrate`, `Shedding`, `Calendar`, `Logging`).
- `Common` and `Text` hold shared vocabulary.

An object whose methods change it is a class, and each method is proved equal to a step
function on the object's value; the theorems about runs fold the step functions. The V4L2
decoder is proved directly, against the trace of its calls and the driver's answers: which
pictures are due, and how each buffer is to be read, are functions of that trace.

Where code and documentation differ, the model follows the code:

- A message whose head ends within three bytes of `MAX_HEADER_BYTES` parses when it arrives
  whole and is refused when it is cut inside its blank line, although `parse` says a buffer
  without a complete message only asks for more (`RtspStream.CutMessage`,
  `SessionRuns.DivisionsAgreeExactlyWhen`).
- `Ended("malformed RTSP")` leaves the media gate open; every other end closes it
  (`OpenGate.MalformedKeepsGate`, `OpenGate.GateOutlivesMalformed`,
  `SessionRuns.NoMediaBeforePlay`).
- The reordering window also refuses a packet half the number space ahead of `next`, which
  bounds how far reordering can be undone (`ReorderSort.RestoresOrderExactlyWhen`).
- `prunable` decides by prefix, so an application's logs include those of one whose name
  continues its own after a dash, and one named after another and a date may take that
  one's logs of the day (`Logging.OwnershipExactly`).
- In Quality mode a queue that is given up takes keyframes not yet due with it
  (`Jitter.GivesUpExactly`, `JitterRuns.KeyframeGivenUp`).
- RTP padding is not taken off the payload (`Rtp.ParseReadsLayout`).
- After a radio error while streaming, `serve` keeps its connection until it returns, so
  `Screen.OneScreen` speaks of sink step boundaries.

`dafny verify dfyconfig.toml` checks the whole project.

## Model

| member | source | states |
|---|---|---|
| Wire.Encode | crates/castr-proto/src/header.rs:26-34 | the header is written in place as its twenty little-endian bytes, reserved ones zero |
| Wire.DecodeEncode | crates/castr-proto/src/header.rs:26-53 | decoding an encoded header in front of any payload gives both back |
| Wire.EncodeDecode | crates/castr-proto/src/header.rs:36-53 | decoding fails exactly on a short datagram or an unknown stream, and re-encoding gives the bytes back up to the two reserved ones |
| Wire.Packetizer.Packetize | crates/castr-proto/src/packetize.rs:18-63 | the datagrams of a frame, numbered in order under the next frame number; an empty frame makes none and uses no number |
| Wire.FragmentDecodes | crates/castr-proto/src/packetize.rs:34-60 | every datagram decodes to its frame, index and chunk, the end flag on the last alone, and is no larger than asked for unless no payload would fit |
| Frames.NewerByDistance | crates/castr-proto/src/reassemble.rs:41-43 | within half the number space of a common origin, the wrapping comparison is the order of the distances |
| Reassembly.Reassembler.Push | crates/castr-proto/src/reassemble.rs:63-118 | the new state and the frame handed out are those of the specification, errors included |
| Reassembly.Reassembler.Place | crates/castr-proto/src/reassemble.rs:70-118 | the same once the header is known: stale, mismatched and duplicate fragments change nothing |
| Reassembly.Reassembler.Finish | crates/castr-proto/src/reassemble.rs:98-117 | a full frame leaves the pending ones, moves the watermark and is handed out joined |
| Reassembly.Reassembler.Tick | crates/castr-proto/src/reassemble.rs:127-158 | expired frames go, their missing fragments are counted, and the repair requests are those of the specification |
| Reassembly.Reassembler.FragmentsLost | crates/castr-proto/src/reassemble.rs:59-61 | reading the loss counter empties it |
| Reassembly.JoinAll | crates/castr-proto/src/reassemble.rs:107-110 | the parts of a full frame, run together |
| Reassembly.Sweep | crates/castr-proto/src/reassemble.rs:127-158 | the walk over the pending frames: requests, expiries and losses |
| Reassembly.PushKeepsHonest | crates/castr-proto/src/reassemble.rs:63-118 | for any bytes at all, what is pending stays incomplete with `received` equal to its filled slots |
| Reassembly.TickNacksExactly | crates/castr-proto/src/reassemble.rs:127-158 | a request goes out exactly for the frames pending, unexpired and worth it, in frame order; each names exactly the empty slots, at least one, each once and ascending |
| Reassembly.DeadlinesExactly | crates/castr-proto/src/reassemble.rs:127-158 | the deadlines in numbers: a frame is kept up to the maximum age behind its first fragment, and asked for while kept and either a keyframe or repairable, a round trip and 10 ms away, inside the window |
| Integrity.NewerIsLater | crates/castr-proto/src/reassemble.rs:41-43 | inside one half-range window of a sender's frames, newer is later sent |
| Integrity.RunsKeepIntegrity | crates/castr-proto/src/reassemble.rs:63-158 | for every run fed by one sender: each frame handed out equals one that was packetized, no number twice, pending frames hold the sender's bytes, and the loss counter is the missing fragments over all expired frames |
| Retransmit.RetransmitBuffer.Prune | crates/castr-net/src/retransmit.rs:35-43 | the frames too old at the front are forgotten, and only those |
| Retransmit.RetransmitBuffer.Record | crates/castr-net/src/retransmit.rs:45-59 | a frame is put at the back, and what has grown too old at the front goes |
| Retransmit.RetransmitBuffer.Lookup | crates/castr-net/src/retransmit.rs:68-81 | the asked-for fragments of the held frame, in the order asked, unknown indices skipped |
| Retransmit.HeldIsRetained | crates/castr-net/src/retransmit.rs:35-59 | with a clock that does not run back, front-only pruning leaves exactly the recorded frames no older than the maximum age |
| Retransmit.LookupAgreesWithHistory | crates/castr-net/src/retransmit.rs:68-81 | a lookup answers as a filter over everything ever recorded would |
| Retransmit.LookupOfUnknown | crates/castr-net/src/retransmit.rs:68-81 | a frame never recorded gets nothing |
| Repair.NackNames | crates/castr-proto/src/reassemble.rs:127-158 | a request names a frame of the sender's and exactly the fragments missing here |
| Repair.MissingFragmentsRestore | crates/castr-proto/src/reassemble.rs:63-118 | a pending frame whose missing fragments arrive in time, in any order and amid anything, is handed out once and equal to the original |
| Repair.ResendsExactly | crates/castr-net/src/retransmit.rs:68-81 | the sender resends exactly the missing datagrams |
| Repair.EndToEnd | crates/castr-proto/src/reassemble.rs:63-158 | end-to-end repair: a requested frame the sender still holds comes out whole, exactly once in the run, however far the watermark has moved |
| Jitter.JitterBuffer.Push | crates/castr-media/src/jitter.rs:77-97 | a frame no newer than the last popped is dropped and counted, a duplicate ignored, and the rest queued in wrapping order |
| Jitter.JitterBuffer.Locate | crates/castr-media/src/jitter.rs:88-91 | the place in the queue the wrapping order gives |
| Jitter.JitterBuffer.FindNewestKeyframe | crates/castr-media/src/jitter.rs:104-106 | the newest keyframe up to an index, if any |
| Jitter.JitterBuffer.GiveUp | crates/castr-media/src/jitter.rs:111-115 | a GOP given up is counted, emptied, and asks for a keyframe |
| Jitter.JitterBuffer.TakeAt | crates/castr-media/src/jitter.rs:118-127 | everything before the taken frame is dropped and counted |
| Jitter.JitterBuffer.TrimWaiting | crates/castr-media/src/jitter.rs:131-136 | the oldest frames beyond 120 are dropped and counted |
| Jitter.JitterBuffer.Pop | crates/castr-media/src/jitter.rs:138-212 | the frame for the decoder and the new state, in both modes |
| Jitter.JitterBuffer.PopScheduled | crates/castr-media/src/jitter.rs:187-210 | the quality branch: nothing early, keyframe skips and giving up when hopelessly late |
| Jitter.JitterBuffer.Flush | crates/castr-media/src/jitter.rs:64-69 | the queue and the playout base are emptied |
| Jitter.JitterBuffer.SetMode | crates/castr-media/src/jitter.rs:58-61 | a new mode starts from an empty queue |
| Jitter.JitterBuffer.RequireKeyframe | crates/castr-media/src/jitter.rs:54-56 | the next frame out has to be a keyframe |
| Jitter.JitterBuffer.Dropped | crates/castr-media/src/jitter.rs:73-75 | reading the drop counter empties it |
| Jitter.PoppedDeltaFollows | crates/castr-media/src/jitter.rs:156-212 | a delta goes out only directly after the frame it refers to |
| Jitter.GamePopsNewestKeyframe | crates/castr-media/src/jitter.rs:138-186 | in Game mode a pop hands out the last keyframe of the queue and keeps only what is behind it; a pop of nothing found no keyframe and leaves at most 120 frames |
| Jitter.GivesUpExactly | crates/castr-media/src/jitter.rs:111-210 | mid-stream in Quality mode the whole queue is given up if and only if the head is late by more than half a second and by more than a frame, the next frame is due too, and no frame of those due in a row is a keyframe |
| Jitter.QualityKeepsSchedule | crates/castr-media/src/jitter.rs:187-210 | in Quality mode nothing goes out before its time, something does once due, and a GOP is given up only half a second late |
| JitterRuns.EveryOutputDecodes | crates/castr-media/src/jitter.rs:54-213 | in every run, with any input, every frame out chains back to a keyframe without a hole or a reset |
| JitterRuns.KeyframeFate | crates/castr-media/src/jitter.rs:58-213 | in every run a queued keyframe stays queued until it is popped, a later keyframe is popped in its place, the queue is flushed, or, in Quality mode alone, the queue is given up under exactly that condition |
| JitterRuns.KeyframeGivenUp | crates/castr-media/src/jitter.rs:138-210 | a concrete run that queues a keyframe and loses it this way |
| JitterRuns.RunConserves | crates/castr-media/src/jitter.rs:58-136 | pushes equal pops, counted drops, queue, ignored duplicates and what flushes discarded |
| JitterRuns.RunOrders | crates/castr-media/src/jitter.rs:77-186 | given half-range input until the first pop, the queue is strictly ordered and strictly newer than the last frame out |
| Playout.GameExactly | crates/castr-media/src/jitter.rs:138-186 | in Game mode, mid-stream, with no keyframe queued and the head following what went out last: up to 30 queued frames the head goes out, beyond that the GOP is given up |
| Playout.GapExactly | crates/castr-media/src/jitter.rs:156-180 | with a hole before the head and no keyframe the wait begins or goes on, at most 120 frames kept, and after more than 150 ms the GOP is given up |
| Playout.NeedExactly | crates/castr-media/src/jitter.rs:138-155 | while a keyframe is needed and none queued nothing goes out, and at most 120 frames wait |
| Playout.KeyframeExactly | crates/castr-media/src/jitter.rs:138-180 | where one is needed or a hole has to be got over, the newest keyframe goes out at once and only what is before it is dropped |
| Playout.QualityExactly | crates/castr-media/src/jitter.rs:187-210 | in Quality mode the head stays until 150 ms after the first arrival plus its distance in timestamps, and goes out from then on within a frame |
| Playout.GamePlaysOut | crates/castr-media/src/jitter.rs:138-186 | up to 30 deltas in a row come out one a pop, in order, nothing dropped |
| Playout.QualityPlaysOut | crates/castr-media/src/jitter.rs:187-210 | frames in a row asked for at their times come out, in order, nothing dropped |
| Playout.GameComesThrough | crates/castr-media/src/jitter.rs:77-186 | over any run that pushes consecutive frames from a keyframe on and asks for each: all come out, in order, none lost and no keyframe asked for, for any times |
| Playout.QualityComesThrough | crates/castr-media/src/jitter.rs:77-210 | the same in Quality mode when each is asked for no sooner than it is to be shown |
| Playout.QualityHoldsBack | crates/castr-media/src/jitter.rs:187-210 | asked for sooner, it stays where it is |
| Shuffle.PushExactly | crates/castr-media/src/jitter.rs:77-97 | what a push does to an ordered queue: not after the last one out it is counted dropped, with a number queued already it is ignored, and otherwise it joins the queue, which stays in order |
| Shuffle.ShuffledQueue | crates/castr-media/src/jitter.rs:77-97 | frames in a row that arrive in any order whatever are queued in their own |
| Shuffle.ShuffledPlaysOut | crates/castr-media/src/jitter.rs:77-186 | and so up to 30 deltas come out in Game mode in order, each once, none dropped, whatever order they arrived in and whenever they are asked for |
| Shuffle.ShuffledPlaysOnTime | crates/castr-media/src/jitter.rs:77-210 | the same in Quality mode for any number of frames, each asked for at its time |
| Rtp.Packetizer.Push | crates/castr-miracast/src/source/rtp_pack.rs:32-46 | a transport stream cut seven packets to a datagram under consecutive wrapping sequence numbers |
| Rtp.ParseDatagram | crates/castr-miracast/src/rtp.rs:16-39 | the parser reads back exactly what the packetizer wrote |
| Rtp.ParseReadsLayout | crates/castr-miracast/src/rtp.rs:16-39 | any header laid out as RFC 3550 says, with contributing sources and extension, is read back in front of any payload, which comes out untouched |
| Rtp.ParseIsLayout | crates/castr-miracast/src/rtp.rs:16-39 | and nothing else parses: bytes that parse are such a header, laid out, and the payload |
| Rtp.TransportRoundTrip | crates/castr-miracast/src/source/rtp_pack.rs:32-46 | parsing the datagrams and running the payloads together gives the transport stream back, across the sequence wrap |
| Reorder.ReorderWindow.Push | crates/castr-miracast/src/rtp.rs:67-102 | what is released, held, refused and counted lost on each arrival |
| Reorder.ReorderWindow.DrainHead | crates/castr-miracast/src/rtp.rs:83-101 | the releasing loop |
| Reorder.ReorderWindow.Flush | crates/castr-miracast/src/rtp.rs:105-111 | everything held comes out and `next` moves behind it |
| Reorder.LossConservation | crates/castr-miracast/src/rtp.rs:42-102 | for every arrival sequence: the unwrapped distance from the first delivered number to `next` is packets delivered plus `lost`; every arrival is delivered, held or refused once; at most `window` are held, sorted, within the half range, the head not deliverable |
| Reorder.DeliveredOnce | crates/castr-miracast/src/rtp.rs:67-102 | in every run each delivery lies ahead of all earlier ones on the unwrapped number line, by less than half the number space a step, so no position is delivered twice and a wire number only a whole trip round later |
| Reorder.FlushCompletes | crates/castr-miracast/src/rtp.rs:105-111 | at the end of any run a flush completes it: deliveries and what comes out go forward all the way, every packet not refused is among them as often as it arrived, and the window is empty behind the last |
| ReorderSort.RestoresOrderExactlyWhen | crates/castr-miracast/src/rtp.rs:67-102 | any number of datagrams in any arrival order, none a whole trip round the number space ahead of the smallest missing one, come out in send order with no loss if and only if the lowest arrives first, none arrives half the number space ahead of the smallest missing one, and at most `window` overtake it |
| ReorderSort.DistinctRestoredExactlyWhen | crates/castr-miracast/src/rtp.rs:67-102 | for datagrams that all differ the same equivalence holds without the condition on whole trips |
| ReorderSort.OvertakingIsNotEnough | crates/castr-miracast/src/rtp.rs:42-44 | the half-range clause is needed: an arrival order where only one datagram ever overtakes and which is still not restored |
| ReorderSort.StandIn | crates/castr-miracast/src/rtp.rs:67-102 | where two packets a whole trip apart are equal, an order that swaps them is restored although the lowest does not come first |
| ReorderSort.StreamComesThrough | crates/castr-miracast/src/rtp.rs:16-102 | a transport stream of any length, cut into datagrams that arrive in any order the window can restore, is parsed, put in order and run together to the same stream with nothing counted lost |
| Demux.Demultiplexer.Push | crates/castr-miracast/src/ts.rs:86-187 | the units and the new state for any packet bytes: tables, continuity, both streams |
| Demux.Demultiplexer.ReadPatSection | crates/castr-miracast/src/ts.rs:189-206 | the program map PID |
| Demux.Demultiplexer.ReadPmtSection | crates/castr-miracast/src/ts.rs:208-239 | the stream PIDs, by walking the table |
| DemuxRefinement.TakeMore | crates/castr-miracast/src/ts.rs:169-186 | a further packet completes the PES with the unit of its group, or leaves it under way |
| DemuxRefinement.DispatchKeeps | crates/castr-miracast/src/ts.rs:86-187 | a packet changes nothing of the streams of other PIDs |
| DemuxRefinement.DemuxIsReference | crates/castr-miracast/src/ts.rs:43-187 | with PIDs that stay put, the video and audio units are exactly those of a reference that groups payloads at PES starts, cuts at the declared length and drops a group broken before it completes |
| Tables.PatRead | crates/castr-miracast/src/ts.rs:189-206 | a PAT laid out as ISO/IEC 13818-1 says gives its program map PID and changes nothing else |
| Tables.PmtRead | crates/castr-miracast/src/ts.rs:208-239 | a PMT so laid out gives the last H.264 and the last LPCM stream it names, past descriptors of any length |
| Tables.TablesLearned | crates/castr-miracast/src/ts.rs:86-239 | a demultiplexer that knows nothing has both streams after a PAT and a PMT, with nothing assembled or counted |
| Tables.FromTables | crates/castr-miracast/src/ts.rs:43-239 | from there on, whatever packets follow and the same tables again among them, the units are exactly the reference's of the two streams announced |
| Tables.SectionPacketReads | crates/castr-miracast/src/source/ts_mux.rs:159-170 | the packet our source wraps a section in is read as that section |
| Tables.OurTablesAnnounce | crates/castr-miracast/src/source/ts_mux.rs:90-155 | the tables our source sends announce its two streams, whatever descriptors and checksums they carry |
| PesLayout.ClockReads | crates/castr-miracast/src/ts.rs:270-276 | the five bytes of a 33-bit clock, marker bits among them, are read as its ticks over 90,000 of a second in microseconds |
| PesLayout.PesReads | crates/castr-miracast/src/ts.rs:252-285 | a PES header laid out as ISO/IEC 13818-1 section 2.4.3.6 says, its declared length or none, further fields and stuffing of any length, is read back: clock, payload length, body |
| PesLayout.PesIsLayout | crates/castr-miracast/src/ts.rs:252-285 | and nothing else parses: bytes that do are such a header, written out, and the body |
| PesLayout.PacketReads | crates/castr-miracast/src/ts.rs:86-107 | a transport packet laid out as section 2.4.3.2 says is read back: PID, start, counter and payload, past an adaptation field of any length |
| PesLayout.PacketIsLayout | crates/castr-miracast/src/ts.rs:86-107 | and nothing else reads |
| PesStream.SentIsExpected | crates/castr-miracast/src/ts.rs:43-187 | PES packets sent on a PID, however cut into transport packets and whatever is sent in between: the reference's units are theirs, each with its clock and its declared length |
| PesStream.ProgramComesThrough | crates/castr-miracast/src/ts.rs:43-285 | from the first byte: a demultiplexer that knows nothing makes of a program so laid out exactly the units of its PES packets, video and audio |
| Lifecycle.Machine.Handle | crates/castr-miracast/src/lifecycle.rs:71-104 | the phase and the actions for each event |
| Lifecycle.Machine.GiveUpHold | crates/castr-miracast/src/lifecycle.rs:108-117 | a hold given up releases the display; anything else is left alone |
| Lifecycle.Machine.Clock | crates/castr-miracast/src/lifecycle.rs:120-134 | a hold ends thirty seconds after it began |
| Lifecycle.AcquireReleaseAlternate | crates/castr-miracast/src/lifecycle.rs:66-134 | in every run the display is acquired and released in turn, and acquired last exactly while it is held |
| Screen.DisplayArbiter.TryAcquire | crates/castr-receiver/src/display.rs:41-50 | granted when idle or already owned by the asker, refused otherwise |
| Screen.DisplayArbiter.Release | crates/castr-receiver/src/display.rs:52-57 | only the owner's release counts |
| Screen.NoPreemption | crates/castr-receiver/src/display.rs:41-57 | over any calls by anyone, as long as the owner has not released it the display stays its owner's, every other caller is refused and the owner is granted |
| Screen.OwnerLetsGo | crates/castr-receiver/src/display.rs:41-57 | a display that is no longer its owner's was released by that owner, which had kept it until then |
| Screen.GrantsTakeTurns | crates/castr-receiver/src/display.rs:41-57 | from an idle display, over any calls by anyone: grants and releases take turns, each release by the one granted last, and a caller is refused exactly when the last change was a grant to another |
| Screen.RunKeeps | crates/castr-miracast/src/sink.rs:338-677 | the invariant of the two threads' protocol holds after every interleaving of their steps |
| Screen.OneScreen | crates/castr-miracast/src/sink.rs:338-677 | castr streams only while it owns the display; between sink steps Miracast owns it exactly while the lifecycle streams or holds and a connection exists exactly while it streams; after `serve` returns it is not Miracast's |
| Screen.NothingLeaks | crates/castr-receiver/src/pipeline.rs:682-822 | with castr waiting and the sink between steps, an owned display is a live cast or hold |
| Screen.HoldLasts | crates/castr-miracast/src/sink.rs:622-628 | a tick releases a held screen exactly when thirty seconds have passed since the session ended |
| Screen.ReturningPeerResumes | crates/castr-miracast/src/sink.rs:527-558 | a peer back within the hold finds the screen still its own and resumes |
| Screen.AcceptExactly | crates/castr-miracast/src/sink.rs:527-575 | after any interleaving a peer gets the screen exactly when its network is up and castr does not have it, from advertising as from a hold, and the sink then streams; refused, nothing has changed |
| Screen.ClaimExactly | crates/castr-receiver/src/pipeline.rs:682-822 | a castr sender gets the screen exactly when Miracast does not have it; refused, it is on its way out with the screen untouched |
| Screen.StreamFrees | crates/castr-receiver/src/pipeline.rs:682-822 | a castr stream that ends leaves the screen free |
| Screen.EndHolds | crates/castr-miracast/src/sink.rs:600-619 | a session that ends keeps the screen, held since that moment, and the viewer is told |
| Screen.HoldFrees | crates/castr-miracast/src/sink.rs:600-628 | a hold given up for another peer, or thirty seconds old at a tick, leaves the screen free and the sink as new |
| Screen.RadioRecovers | crates/castr-miracast/src/sink.rs:338-677 | a radio error after any interleaving frees the screen of Miracast, asks once for the group to be rebuilt, and the next pass starts afresh |
| Rtsp.ReadHeaders | crates/castr-miracast/src/rtsp.rs:100-109 | the header loop: each non-empty line trimmed at its first colon, or an error |
| Rtsp.FormatMessage | crates/castr-miracast/src/rtsp.rs:59-79 | printing: start line, headers, the content headers of a body, blank line, body |
| Rtsp.WriteHeaders | crates/castr-miracast/src/rtsp.rs:69-75 | the header-writing loop |
| Rtsp.StartRoundTrip | crates/castr-miracast/src/rtsp.rs:148-170 | a legal start line reads back as it was printed, request or response |
| Rtsp.HeadRoundTrip | crates/castr-miracast/src/rtsp.rs:96-122 | a printed head reads back as its start line, its headers with the two content headers, and the body's length |
| Rtsp.PrintThenParse | crates/castr-miracast/src/rtsp.rs:59-142 | parsing a printed legal message takes exactly its bytes, whatever follows, and returns the same message |
| Rtsp.OversizeRefused | crates/castr-miracast/src/rtsp.rs:96-122 | a message that declares a body over the limit is refused as soon as its head is there |
| Rtsp.HeadersReadExactly | crates/castr-miracast/src/rtsp.rs:100-109 | header lines are refused exactly when one that is not empty has no colon |
| RtspStream.ParseStable | crates/castr-miracast/src/rtsp.rs:87-142 | a message found at the front of a buffer stays when bytes are appended |
| RtspStream.TakeAppend | crates/castr-miracast/src/session.rs:70-90 | draining a buffer and then the rest with more behind it takes the messages of draining the whole |
| RtspStream.CutMessage | crates/castr-miracast/src/rtsp.rs:87-142 | a message cut anywhere inside asks for more, except that a head over the limit is refused before its blank line is complete |
| RtspStream.PrefixIsClean | crates/castr-miracast/src/rtsp.rs:87-142 | no prefix of a stream is refused when its heads end three bytes below the limit |
| RtspStream.LongHeadFails | crates/castr-miracast/src/rtsp.rs:87-95 | a stream with a longer head has a prefix that is refused |
| RtspStream.LongHeadHappens | crates/castr-miracast/src/rtsp.rs:87-95 | such a stream exists: a legal printed message that parses whole and not in pieces |
| RtspStream.PrintedStream | crates/castr-miracast/src/rtsp.rs:59-142 | a stream of printed messages holds just those messages |
| Negotiation.ChosenExactly | crates/castr-miracast/src/rtsp.rs:537-549 | a chosen-format line is accepted exactly when mode 5 is the one CEA bit and the other two tables are empty |
| Negotiation.Negotiator.OnMessage | crates/castr-miracast/src/rtsp.rs:442-451 | state and actions for any message |
| Negotiation.Negotiator.OnRequest | crates/castr-miracast/src/rtsp.rs:453-491 | the five request branches |
| Negotiation.Negotiator.OnSetParameter | crates/castr-miracast/src/rtsp.rs:493-533 | parameters, refusal and the SETUP trigger |
| Negotiation.Negotiator.ReadParameters | crates/castr-miracast/src/rtsp.rs:497-516 | the parameter loop; what was taken before a refusal stays taken |
| Negotiation.Negotiator.OnResponse | crates/castr-miracast/src/rtsp.rs:551-572 | refusals, the session of a SETUP answer, PLAY |
| Negotiation.Negotiator.Tick | crates/castr-miracast/src/rtsp.rs:575-601 | the silence timeout and the keep-alive |
| Negotiation.Negotiator.RequestBitrate | crates/castr-miracast/src/rtsp.rs:605-617 | a bitrate request, while playing |
| Negotiation.Negotiator.RequestIdr | crates/castr-miracast/src/rtsp.rs:620-635 | a keyframe request, at most one per 500 ms |
| NegotiationRuns.RequestsAreNumbered | crates/castr-miracast/src/rtsp.rs:430-434 | in every run our requests carry CSeq 100, 101, 102 and so on, whoever sends them |
| NegotiationRuns.NumbersDiffer | crates/castr-miracast/src/rtsp.rs:430-434 | no two of them share a number |
| NegotiationRuns.PlayOnce | crates/castr-miracast/src/rtsp.rs:551-572 | Play happens at most once in a run, right behind our PLAY request, after a SETUP of ours and on a 200 that names a session |
| NegotiationRuns.RequestsArePaced | crates/castr-miracast/src/rtsp.rs:575-635 | keyframe requests are at least 500 ms apart and keep-alives at least 5 s, whatever the clock does |
| Exchange.RequestsAreAnswered | crates/castr-miracast/src/rtsp.rs:436-535 | over every run each request of the source gets exactly one answer, in order and under its own number: 400 for an unknown method or a format we cannot take, else 200, with the capabilities exactly when it asks for them |
| Exchange.RefusedExactly | crates/castr-miracast/src/rtsp.rs:493-535 | parameters are refused exactly when one of them asks for a format we cannot take |
| Exchange.KeepAliveMovesNothing | crates/castr-miracast/src/rtsp.rs:469-480 | a keep-alive of the source's changes nothing but when it was last heard of |
| Exchange.TeardownEnds | crates/castr-miracast/src/rtsp.rs:481-488 | its TEARDOWN ends the session once it is answered |
| Exchange.ExchangeStartsStream | crates/castr-miracast/src/rtsp.rs:436-573 | M1 to M6 with any numbers: what goes out is our options and our OPTIONS, the capabilities, two 200s, SETUP to the URL named with our port, PLAY under the session opened and the start of the stream, at 1280x720 and 30 frames a second |
| Exchange.TicksExactly | crates/castr-miracast/src/rtsp.rs:575-603 | after any run a tick gives up a source silent for more than ten seconds, sends the keep-alive that five seconds make due, or does nothing |
| Exchange.KeyframeExactly | crates/castr-miracast/src/rtsp.rs:620-635 | after any run a wish for a keyframe becomes a request exactly when none went out within half a second |
| Exchange.BitrateExactly | crates/castr-miracast/src/rtsp.rs:605-618 | a wish for a bitrate goes out as one request under our session while the stream plays, and else not at all |
| Session.SinkSession.OnRtspBytes | crates/castr-miracast/src/session.rs:70-90 | the buffer is extended and drained message by message |
| Session.SinkSession.DrainBuffer | crates/castr-miracast/src/session.rs:73-89 | the draining loop |
| Session.SinkSession.ApplyActions | crates/castr-miracast/src/session.rs:169-189 | actions become events, and open or close the gate |
| Session.SinkSession.OnDatagram | crates/castr-miracast/src/session.rs:97-135 | a datagram through parser, reorder window and demultiplexer, then the keyframe request and the bitrate request its losses call for |
| Session.SinkSession.DemuxPackets | crates/castr-miracast/src/session.rs:110-119 | the packet and chunk loops |
| Session.SinkSession.Tick | crates/castr-miracast/src/session.rs:138-159 | the media timeout, the bitrate ladder's sample and the negotiation's clock |
| Session.SinkSession.NoteDecodeError | crates/castr-miracast/src/session.rs:162-167 | a decode error asks for a keyframe |
| SessionRuns.DivisionsAgree | crates/castr-miracast/src/session.rs:70-90 | for any handler of messages, division into chunks does not matter exactly when the heads fit |
| SessionRuns.DivisionsAgreeExactlyWhen | crates/castr-miracast/src/session.rs:70-90 | for a stream of whole messages, every division at one instant gives the state, left-over bytes and events of one feed if and only if every head ends at least three bytes below the limit |
| SessionRuns.DeliveredInAnyDivision | crates/castr-miracast/src/session.rs:70-90 | printed messages, cut anywhere, reach the negotiation as printed, in order, with nothing left over |
| SessionRuns.NoMediaBeforePlay | crates/castr-miracast/src/session.rs:97-189 | in every session media passes only behind our one PLAY request with no stopping end in between, and the `playing` flag is open exactly when the events say so |
| OpenGate.MalformedOnlyReports | crates/castr-miracast/src/session.rs:70-90 | whatever is buffered, bytes that do not parse are reported behind the messages in front of them, the buffer is emptied, and nothing else changes |
| OpenGate.MalformedKeepsGate | crates/castr-miracast/src/session.rs:70-90 | whatever a session has been through, such bytes leave the media gate as the messages handled left it |
| OpenGate.GateOutlivesMalformed | crates/castr-miracast/src/session.rs:70-90 | a concrete session, triggered, answered and sent a blank line, reports its end and still lets media pass |
| SessionMedia.DatagramShows | crates/castr-miracast/src/session.rs:97-130 | what one datagram shows is the units of the packets it releases from the window, each of its kind, before anything is asked for |
| SessionMedia.FeedShows | crates/castr-miracast/src/session.rs:97-130 | while the gate is open, for any datagrams: the media shown is exactly what a demultiplexer makes of what the window releases, in order |
| SessionMedia.ProgramIsShown | crates/castr-miracast/src/session.rs:97-130 | end to end: the datagrams of a program in any order the window restores show exactly the units of the PES packets the source sent |
| SessionMedia.JumpsAreCounted | crates/castr-miracast/src/ts.rs:108-121 | what the demultiplexer counts as lost is exactly the packets that do not count on from the one before on their PID |
| SessionMedia.RunSeesLoss | crates/castr-miracast/src/session.rs:97-136 | over every run all loss has been seen, and the media clock is the last datagram of ours |
| SessionMedia.DatagramSays | crates/castr-miracast/src/session.rs:97-136 | after any run, everything a datagram leads to: what it shows, a request for a keyframe exactly when new loss comes to light and none was asked for within half a second, and the bitrate the ladder answers |
| SessionMedia.SilenceEnds | crates/castr-miracast/src/session.rs:138-160 | after any run a tick more than two seconds behind the last datagram ends the media and says so, and no other does |
| SessionTalk.NegotiationBehind | crates/castr-miracast/src/session.rs:65-90 | behind every run of a session stands a run of the negotiation that sent just what it sent |
| SessionTalk.SessionPlays | crates/castr-miracast/src/session.rs:65-90 | a session that is told M1 to M6 plays, and says at which mode |
| SessionTalk.SessionShowsProgram | crates/castr-miracast/src/session.rs:65-189 | from the first message to the last unit: told M1 to M6 and then fed a program's datagrams in any order the window restores, it shows exactly the units sent |
| Ladder.BitrateLadder.Sample | crates/castr-miracast/src/quality.rs:51-81 | the new rung and the ceiling to ask for, from the losses so far |
| Ladder.RunNeverOscillates | crates/castr-miracast/src/quality.rs:12-81 | over every run and any clock, the ceiling told last is the rung in force, falls go straight to the floor and are a second apart from what came before, and a climb is one rung and ten seconds or more after the answer before it |
| Ladder.BadSecondFalls | crates/castr-miracast/src/quality.rs:61-72 | after any run, five losses since the last sample that counted put the ceiling at the floor |
| Ladder.TenthClimbs | crates/castr-miracast/src/quality.rs:73-80 | the tenth clean sample in a row climbs a rung, and no earlier one does |
| Bitrate.BuildLadder | crates/castr-media/src/bitrate.rs:46-55 | the loop of `new` builds the ladder |
| Bitrate.LadderShape | crates/castr-media/src/bitrate.rs:46-55 | native first, then ever narrower rungs of the same shape, heights even and within two lines |
| Bitrate.Controller.constructor | crates/castr-media/src/bitrate.rs:45-69 | the bitrate starts clamped and the rung native |
| Bitrate.Controller.SetMode | crates/castr-media/src/bitrate.rs:71-76 | Quality goes back to the native rung |
| Bitrate.Controller.OnStats | crates/castr-media/src/bitrate.rs:85-154 | the new state, and a decision exactly when bitrate or resolution changed |
| Bitrate.Controller.Cut | crates/castr-media/src/bitrate.rs:93-104 | cuts on loss or a deep queue, guarded by time and floor |
| Bitrate.Controller.Raise | crates/castr-media/src/bitrate.rs:106-116 | raises on clean intervals, up to the ceiling |
| Bitrate.Controller.StepForQueue | crates/castr-media/src/bitrate.rs:119-131 | a deep queue on a clean network steps down and doubles the wait |
| Bitrate.Controller.StepForFloor | crates/castr-media/src/bitrate.rs:132-142 | two seconds at the floor step down |
| Bitrate.Controller.StepUp | crates/castr-media/src/bitrate.rs:143-149 | a clean spell as long as the wait steps up |
| Bitrate.StatsKeepSane | crates/castr-media/src/bitrate.rs:85-154 | every report keeps bitrate, rung, mode and wait within their bounds, and the wait never shrinks |
| Bitrate.RunKeepsPace | crates/castr-media/src/bitrate.rs:45-155 | in every run the bitrate falls only by cuts; cuts, those at the floor included, are 500 ms apart, rises 1 s, upward steps the wait in force, which never shrinks and stays within 5 to 60 s; bounds hold throughout |
| Bitrate.CleanClimb | crates/castr-media/src/bitrate.rs:106-116 | for clean reports at any spacing, the bitrate is the starting one plus a twentieth of the ceiling for each raise so far, up to the ceiling |
| Bitrate.TwentyRaises | crates/castr-media/src/bitrate.rs:106-116 | from anywhere there are at most twenty uninterrupted raises, and twenty reach the ceiling |
| Bitrate.CeilingInTime | crates/castr-media/src/bitrate.rs:106-116 | with clean reports at most a gap apart, the ceiling is reached within twenty times a raise interval and a gap |
| Shedding.CutsExactly | crates/castr-media/src/bitrate.rs:93-104 | a report cuts exactly when 500 ms have passed and more than 2 % was lost, to 70 %, or else the queue is deep, to 85 %, never below the floor |
| Shedding.FloorStepsExactly | crates/castr-media/src/bitrate.rs:132-142 | on loss the resolution steps down exactly when the bitrate has been at its floor for two seconds |
| Shedding.QueueStepsExactly | crates/castr-media/src/bitrate.rs:119-131 | a queue deep for a second on a clean network steps it down and doubles the wait for the way back |
| Shedding.ClimbsExactly | crates/castr-media/src/bitrate.rs:143-149 | above the floor a clean report steps it up exactly when it has been clean, and no step was made, for the wait |
| Shedding.LossCuts | crates/castr-media/src/bitrate.rs:93-104 | under sustained loss the bitrate is at most what the cuts so far leave of it, and they come in time |
| Shedding.FloorInTime | crates/castr-media/src/bitrate.rs:93-104 | reported at most a gap apart, sustained loss brings the bitrate to its floor after two cuts for each halving it is away from it |
| Shedding.LastRungInTime | crates/castr-media/src/bitrate.rs:132-142 | at the floor it takes the resolution down a rung every two seconds and a gap, to the last one |
| Shedding.NativeInTime | crates/castr-media/src/bitrate.rs:143-149 | a clean spell brings the native resolution back, a rung with every wait and gap |
| Calendar.CivilIsRight | crates/castr-net/src/logging.rs:39-50 | for every day, before the epoch too, the date is a date, and counting days year by year and month by month gives the day back |
| Calendar.CivilNext | crates/castr-net/src/logging.rs:39-50 | day 0 is 1970-01-01 and the date of the next day is the next date |
| Calendar.CivilMonotone | crates/castr-net/src/logging.rs:39-50 | a later day has a later date |
| Logging.PartsMonotone | crates/castr-net/src/logging.rs:53-64 | a later second has later parts |
| Logging.StampOrder | crates/castr-net/src/logging.rs:75-78 | before year 10000 a later second has a later stamp as text, of the same length |
| Logging.NamesSortByTime | crates/castr-net/src/logging.rs:85-87 | log names sort by time whatever the process ids |
| Logging.SortNames | crates/castr-net/src/logging.rs:94-103 | the names in text order, each as often as before |
| Logging.Prunable | crates/castr-net/src/logging.rs:94-103 | the surplus of our names over `keep`, in order, none kept below one of them |
| Logging.PrunesOldest | crates/castr-net/src/logging.rs:89-103 | no run that is kept is older than one that is pruned |
| Logging.PrunesOurs | crates/castr-net/src/logging.rs:89-103 | only names with our prefix and suffix are pruned |
| Logging.OwnershipExactly | crates/castr-net/src/logging.rs:89-103 | another application's log counts as ours exactly when the names are equal, ours is a dash-separated beginning of it, or ours is it with that log's date, or date and time, behind a dash |
| Logging.OwnershipSurprises | crates/castr-net/src/logging.rs:89-103 | two concrete pairs: castr takes the logs of castr-sender, and castr-19700101 a castr log of that day |
| PlaneCopy.AcceptedIsInside | crates/castr-codec-v4l2/src/decoder.rs:465-483 | the geometry check implies the copy's assertions for both planes, odd heights and offsets included |
| PlaneCopy.CropIsVisible | crates/castr-codec-v4l2/src/decoder.rs:465-495 | the copy is the visible rectangle: luma rows, then chroma rows at half height |
| PlaneCopy.ChunksPartition | crates/castr-codec-v4l2/src/decoder.rs:653-663 | the chunks cover the rows in order, none empty, no more than the threads |
| PlaneCopy.CopyPlanes | crates/castr-codec-v4l2/src/decoder.rs:620-688 | the destination is the row-by-row crop |
| PlaneCopy.CopyChunk | crates/castr-codec-v4l2/src/decoder.rs:663-680 | one thread's rows |
| PlaneCopy.CopyRow | crates/castr-codec-v4l2/src/decoder.rs:672-678 | one row, and nothing beside it |
| PlaneCopy.WrittenOnce | crates/castr-codec-v4l2/src/decoder.rs:654-687 | each byte of a thread's rows is written once and no other |
| PlaneCopy.AnyInterleavingCopies | crates/castr-codec-v4l2/src/decoder.rs:620-688 | however the threads interleave, for every number of them, every byte is written once and the result is the row-by-row crop |
| V4l2Queue.Queue.Allocate | crates/castr-codec-v4l2/src/queue.rs:32-50 | on success just as many buffers as the driver granted, none of them queued |
| V4l2Queue.Queue.Enqueue | crates/castr-codec-v4l2/src/queue.rs:80-98 | refused out of range or when queued already, without a driver call; the flags keep agreeing with the driver |
| V4l2Queue.Queue.Take | crates/castr-codec-v4l2/src/queue.rs:100-114 | a buffer that comes back is flagged free, an unknown one is an error, and an answer of nothing is recorded |
| V4l2Queue.Queue.StopStream | crates/castr-codec-v4l2/src/queue.rs:63-70 | stopping frees every buffer |
| V4l2Queue.Queue.Release | crates/castr-codec-v4l2/src/queue.rs:116-123 | on success a running stream is stopped and then the buffers are freed, in that order, and the queue is empty; a failed stop leaves it as it was |
| V4l2Queue.Queue.FreeSlot | crates/castr-codec-v4l2/src/queue.rs:72-74 | the first free buffer |
| V4l2Queue.Queue.CountInFlight | crates/castr-codec-v4l2/src/queue.rs:76-78 | how many are with the driver |
| V4l2Queue.FreeExists | crates/castr-codec-v4l2/src/queue.rs:72-78 | there is a free buffer exactly when not all are in flight |
| V4l2Queue.TracksStep | crates/castr-codec-v4l2/src/queue.rs:80-114 | our flags agree with an honest driver through every kind of call |
| V4l2Queue.HeldCount | crates/castr-codec-v4l2/src/queue.rs:76-78 | our count is the number of buffers the driver holds |
| V4l2Queue.SafeTouches | crates/castr-codec-v4l2/src/decoder.rs:714-730 | in a safe trace, at every touch of a buffer an honest driver did not hold it |
| V4l2Queue.OnwardOn | crates/castr-codec-v4l2/src/queue.rs:80-114 | what is recorded between two moments, the driver answered, in that order and from what it still had to say; and so over any number of calls |
| V4l2Decoder.Decoder.Start | crates/castr-codec-v4l2/src/decoder.rs:104-210 | a device is set up only if its answers name a memory-to-memory codec that lists H.264 and NV12; then the decoder's invariants hold, with at least two input buffers, none in flight, each holding the largest access unit, and a running provisional capture queue with every buffer queued |
| V4l2Decoder.Decoder.Supports | crates/castr-codec-v4l2/src/decoder.rs:197-210 | whether a format is among the first 64 the driver lists |
| V4l2Decoder.Decoder.DrainOutput | crates/castr-codec-v4l2/src/decoder.rs:388-398 | what the driver offers first is taken, the driver is asked until it has nothing, whether anything came back, and never more are in flight |
| V4l2Decoder.Decoder.TakeCapture | crates/castr-codec-v4l2/src/decoder.rs:430-530 | a buffer the driver offers yields exactly its picture, or none from the provisional queue or an empty buffer; the pictures due by the trace are what they were and this one; only a failed call loses one |
| V4l2Decoder.Decoder.CopyOut | crates/castr-codec-v4l2/src/decoder.rs:455-496 | the visible rectangle of the buffer, copied while the driver does not hold it, or an error out of bounds |
| V4l2Decoder.Decoder.GiveBack | crates/castr-codec-v4l2/src/decoder.rs:498-523 | the last buffer stays and ends the sequence; any other is queued again, or on EINVAL stays and ends the sequence, or on any other refusal is an error with nothing changed |
| V4l2Decoder.Decoder.CollectCapture | crates/castr-codec-v4l2/src/decoder.rs:404-425 | up to the limit, buffers come back and their pictures go in line in that order; it stops only at the limit, at the end of the sequence or when the driver has none; the sequence is over exactly when a last buffer, an end or a buffer not taken back said so; a picture on offer is in line afterwards |
| V4l2Decoder.Decoder.DrainToLast | crates/castr-codec-v4l2/src/decoder.rs:347-368 | the capture side is asked until a sign of the end of the sequence, or more than fifty times in vain; inputs come back meanwhile |
| V4l2Decoder.Decoder.ReconfigureCapture | crates/castr-codec-v4l2/src/decoder.rs:302-341 | a source change handled leaves a capture queue at work with every buffer queued, no longer provisional and its sequence not over, under a rectangle asked for since; an old sequence is drained to a sign of its end or more than fifty tries; the old queue stays only with the old format; every picture that came back before is in line, read as it was then |
| V4l2Decoder.Decoder.ReplaceCapture | crates/castr-codec-v4l2/src/decoder.rs:307-341 | the old queue is kept exactly when it was not provisional and the format reported is the same, with as many buffers; a failure leaves no capture queue |
| V4l2Decoder.Decoder.Hear | crates/castr-codec-v4l2/src/decoder.rs:371-386 | what the driver tells is recorded, and the end of the stream remembered exactly when it was told |
| V4l2Decoder.Decoder.HearOne | crates/castr-codec-v4l2/src/decoder.rs:371-386 | a source change is acted on at once: afterwards the capture side runs, not provisional, its sequence open; anything else moves nothing |
| V4l2Decoder.Decoder.DrainEvents | crates/castr-codec-v4l2/src/decoder.rs:371-386 | the driver is asked for news until it has none; if a change was among them the capture side runs as the last one asked for; whether there was any news |
| V4l2Decoder.Decoder.Settle | crates/castr-codec-v4l2/src/decoder.rs:731-747 | after an input all news is heard, and the capture side asked within the budget; success means a picture in line, or fewer than 60 inputs or 2 s without one |
| V4l2Decoder.Decoder.WaitForSlot | crates/castr-codec-v4l2/src/decoder.rs:544-586 | on success fewer than two inputs are in flight, and the budget is spent only on a capture buffer asked for; with room at once, nothing happens at all |
| V4l2Decoder.Decoder.Feed | crates/castr-codec-v4l2/src/decoder.rs:719-730 | the access unit is in a buffer the driver did not hold, and then queued with its length and timestamp |
| V4l2Decoder.Decoder.Decode | crates/castr-codec-v4l2/src/decoder.rs:695-748 | for any driver: at most two inputs in flight afterwards, no answer that a buffer is missing; on success exactly this input queued, all news heard behind it and every source change among it acted on, the capture side asked unless its sequence is over or it is gone, and the next picture due handed out, nothing only when all due have been and the decoder is not stuck; an unfit unit or a stream at its end is refused untouched; with room and a willing driver it succeeds with the picture that comes; a failed call hands out nothing and loses at most the last picture that came back |
| V4l2Decoder.Decoder.FreeBuffer | crates/castr-codec-v4l2/src/decoder.rs:715-718 | the first free input buffer, and an error exactly when the driver has them all |
| V4l2Decoder.Decoder.PollFrame | crates/castr-codec-v4l2/src/decoder.rs:761-773 | the next picture due, without an input: one already in line without asking the driver, else all news is heard and acted on and the capture side asked; a picture that waits in the driver comes out |
| V4l2Decoder.NeverProvisionalAgain | crates/castr-codec-v4l2/src/decoder.rs:302-341 | once the provisional queue is replaced, no later buffer is read as one of its |
| V4l2Decoder.ReadAlike | crates/castr-codec-v4l2/src/decoder.rs:430-496 | as long as the driver gives no new format or rectangle, all buffers are read alike |
| V4l2Decoder.DueAfterChange | crates/castr-codec-v4l2/src/decoder.rs:302-496 | once a source change has been seen to, every buffer that comes back in any later call, not empty and in bounds, is a picture to hand out, in its place, unless it was lost with a failed call |
| V4l2Decoder.SeenTo | crates/castr-codec-v4l2/src/decoder.rs:302-386 | a change that was told of and is not owed has been seen to: the queue in use is not the provisional one |

## Left out

- Counters and clocks of 32 and 64 bits other than frame, sequence and timestamp numbers are unbounded: `lost`, `dropped`, `unanswered`, `next_cseq`, microseconds, and the sum of the two fragment counts in the statistics do not overflow here.
- Products in the geometry check and in the resolution ladder are unbounded, so a `usize` or `u32` overflow on absurd sizes is not modelled.
- RTSP text is ASCII: the UTF-8 error, Unicode white space and the leading `+` that Rust's integer parsing accepts are not modelled.
- Negotiation.Negotiator.OnMessage: the capability body is a parameter, because it is one formatted string; actions only a source carries out do not occur.
- SessionRuns.NoMediaBeforePlay: does not say media stops at malformed RTSP, because the code does not stop it.
- SessionRuns.DivisionsAgreeExactlyWhen: speaks of chunks at one instant, because a message's time of arrival is part of the state.
- Shedding.NativeInTime: starts above the bitrate floor, because at the floor the code steps down even on clean reports.
- Exchange.TicksExactly: speaks of a negotiation that has not ended, because after that the code does nothing on a tick.
- Bitrate.Controller.OnStats: the products with 0.7 and 0.85 may each land one below an exact whole number, standing for floating point; the loss thresholds are integer comparisons.
- Integrity.RunsKeepIntegrity: speaks of one sender's frames within half the number space, because beyond it the wrapping comparison itself no longer orders them.
- ReorderSort.RestoresOrderExactlyWhen: asks that no arrival is a whole trip round the number space ahead, because two equal packets a trip apart can stand in for each other (`ReorderSort.StandIn`); up to 65536 datagrams none is, and of distinct ones none needs to be.
- DemuxRefinement.DemuxIsReference: speaks of tables that leave the PIDs alone, because moving one mid-stream restarts no assembly.
- Tables.FromTables: speaks of tables that fit one packet each, because the code reads no others.
- Reorder.LossConservation: ends at a flush, because loss across a flush is not counted by the code.
- Screen.OneScreen: station joins and leaves, PINs and MAC bookkeeping are nondeterministic steps, because they only decide when the modelled events happen.
- Calendar.CivilIsRight: the truncation of a year beyond 32 bits is not modelled, because names are ordered only before year 10000.
- Logging.SortNames: the standard library's sort is an insertion sort here, because only its result matters.
- V4l2Decoder.Decoder.Start: releasing on drop is left out, because nothing follows it.
- V4l2Queue.Queue.Allocate: a failed allocation leaves the queue empty instead of partly filled, because its callers only release it.
- PlaneCopy.CopyPlanes: the threads are one loop in the method and a free interleaving in the lemma; uninitialised memory is a buffer with any content.
- A driver that never stops answering is a script of any finite length here, so only a prefix of an endless call is covered.
- NegState::Done being absorbing, and the source having been told every answer of the ladder: the code maintains neither, the second because an answer given outside playing is dropped.
- Capture, encoding, rendering, audio, the radio, ioctls, sockets, QUIC, TLS, mDNS, the supplicant process, pairing and files: foreign calls and plumbing.
- The source side of Miracast beyond its RTP packetizer and its tables, cursor blending, colour conversion, rotation, DHCP, WFD capability strings and PIN checksums: easier members that add no property above.
