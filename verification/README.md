# Tactus, modelled in Dafny

Tactus is a peer for the Ableton Link protocol family: it finds other peers by
multicast gossip, measures their clocks, agrees with them on a session, a shared
timeline and a transport state, and streams beat-stamped audio between them. These
modules model its four connected cores and prove what holds of them.

| modules | what they model |
|---|---|
| `BeatGrid` | rounding division, quantum alignment, the timeline maps and their inverses, tempo changes and session founding (`math.rs`, `lib.rs`) |
| `Codec`, `Discovery`, `Sync`, `AudioWire`, `WireLayout` | the wire formats (`tactus-wire`): what is written and read as functions on bytes, and the writers, readers and entry iterator as classes and methods proved to do just that; where every field stands |
| `AudioSink`, `AudioSender`, `StampDrift`, `EmittedStamps` | the transmitting end: the queue of segments, the two passes that plan a datagram and cut it, whole runs of writes, drift of the stamps that reach the wire |
| `FrameCounts`, `Splits`, `ChunkCounts` | the same queue as frame counts: when the pieces a stream is written in decide how it is packed, and how large a datagram they make |
| `AudioSource`, `AudioStream`, `HeardStamps` | the receiving end, both ends joined through the codec, and what is heard of each chunk |
| `Announcement`, `Directory` | announcement rounds and channel byes split across messages, and what they leave with a peer that hears them |
| `Gossip` | the "greatest key wins" register, and n peers that edit, send and receive snapshots |
| `Election`, `ClockEstimate` | the join rule over sets of sessions and runs; midpoint estimators and the median |
| `EngineState`, `Engine`, `Instants`, `Wakeups` | the peer state machine: one class whose every handler keeps `Valid()` and states the whole change it makes; the deadlines of housekeeping |
| `SessionLaws`, `EngineLaws` | what the handlers' specifications mean: gossip as delivery between peers, the grid a joiner plays, the beat a founder keeps, finished measurements, the task queue, timers, losses |
| `Dispatch`, `Meeting` | from the bytes of a datagram to the handler: liveness gate, decoding, admission, answers; runs of frames, and two engines that greet each other |

`Types` and `Wrappers` hold shared value types.

`Engine.Valid()` is the invariant of every reachable state: the tempo is in range; the
retained offset of the current session is the one in use; at most one measurement task
a session, join tasks never for the current or a measured one, retries and samples
within budget; every peer, channel, path and queued task names an open gateway and
every channel's publisher is a present peer; Alive rounds are 50 ms apart, a due
broadcast is exactly one spacing after the last round, and whatever the peers were last
told is current or a broadcast is due; a disabled engine knows nobody. Every public
handler requires and ensures it, so it holds over every run.

Conventions. Integers are unbounded; where the wire or a cast limits a value the limit
is written out. Truncating division is spelled out, since Dafny's is Euclidean. Offset
samples are kept doubled, so midpoints are whole numbers. `Now()` returns any reading
not before the last one. Fresh identifiers are parameters required to be unused. Ghost
results (`at`, `pass`, `task`, `sorted`) name the instants and choices a handler's
contract speaks of. `hide` statements only withhold definitions a proof does not need.

Where the code and its own documentation differ, the code is modelled:

- The timeline maps are documented as a bijection. On integers they are one in one
  direction only, unless a beat lasts exactly a second; the exact condition and the
  tight bound of each direction are stated.
- The join rule is documented to break ties by id within the threshold. At exactly the
  threshold it is silent, and across it three sessions can cycle; the exact condition
  for a consistent ranking is stated.

Beyond what the documentation says:

- A tempo change can move the current beat, by up to 17 micro-beats; `RetempoContinuousIff`
  says when it does not.
- Two tempo changes at the same beat origin never merge; `FullExchange` says when peers
  end with the same timeline.
- A pong without usable samples re-arms the retry timer; `MeasurementOverIff` says when
  a measurement is over.
- The loss count falls short when a late chunk is repeated; `LossExactIff` says when it
  is right.
- Reference sizing leaves the chunk records out of its budget, and a datagram can exceed
  1200 bytes: `OversizeDatagram` makes one, `QueueFits` says of any queue whether the
  next one fits, `TouchedBlockFits` of which blocks of a stream it always does. Above 251
  channels it emits nothing.
- Fill sizing can pack the same stream differently when it is written in other pieces:
  `FillDependsOnSplits` shows one. `DrainBetweenWrites` says when one more write makes a
  difference, `FillBlocksIff` when continuous material leaves in full blocks.
- The deadline a housekeeping pass returns can come too late for a broadcast deferred in
  that pass or for the retry of a measurement started in it; `CoversAllIff`.
- An application that plays while its session has no transport, and synchronises, is at
  odds with the session founded when the last member leaves; `FoundingFollowsIff`.

## Model

| member | source | states |
|---|---|---|
| BeatGrid.RoundDivNearest | crates/tactus/src/math.rs:15-23 | truncating division after adding half the divisor errs by at most half the divisor |
| BeatGrid.RoundDivTie | crates/tactus/src/math.rs:15-23 | a tie moves away from zero, for either sign |
| BeatGrid.RoundDivUnique | crates/tactus/src/math.rs:15-23 | converse: any integer strictly closer than half the divisor is the quotient returned |
| BeatGrid.AlignUpUnique | crates/tactus/src/math.rs:36-41 | the result is the one value in [x, x+q) with the phase of t: both directions |
| BeatGrid.AlignNearNearest | crates/tactus/src/math.rs:46-51 | the result has the target phase, moves by at most half a quantum, and a tie resolves downward |
| BeatGrid.AlignNearShift | crates/tactus/src/math.rs:46-51 | shifting value and target together shifts the result, the fact every quantum inverse rests on |
| BeatGrid.GhostRoundTrip | crates/tactus/src/math.rs:69-85 | ghost to beats to ghost errs by at most 1 microsecond at every clamped tempo, and by nothing at tempo up to 1,000,000 |
| BeatGrid.GhostRoundTripIdentityIff | crates/tactus/src/math.rs:69-85 | the documented bijection holds for every ghost time exactly when tempo is at most 1,000,000 |
| BeatGrid.BeatRoundTrip | crates/tactus/src/math.rs:69-85 | beats to ghost to beats errs by at most 8 micro-beats at every clamped tempo, and by nothing from tempo 1,000,000 up |
| BeatGrid.BeatRoundTripIdentityIff | crates/tactus/src/math.rs:69-85 | the other direction of the bijection holds for every beat exactly when tempo is at least 1,000,000 |
| BeatGrid.RoundTripBoundsAreTight | crates/tactus/src/math.rs:69-85 | concrete timelines attain 1 microsecond and 8 micro-beats |
| BeatGrid.AppBeatClosedForm | crates/tactus/src/math.rs:89-92 | the reported beat is beats since the origin plus the session offset, for every quantum |
| BeatGrid.GhostAtAppBeatClosedForm | crates/tactus/src/math.rs:94-104 | the quantum inverse is the timeline inverse at b - offset + origin, ties included |
| BeatGrid.AppBeatRoundTrip | crates/tactus/src/lib.rs:248-253 | beat to time to beat through any quantum: within 8 micro-beats, exact from tempo 1,000,000 up |
| BeatGrid.AppBeatRoundTripIdentityIff | crates/tactus/src/math.rs:89-104 | ... and exact for every beat only then |
| BeatGrid.AppTimeRoundTrip | crates/tactus/src/lib.rs:232-253 | time to beat to time errs by at most 1 microsecond whatever the quantum |
| BeatGrid.BeatAlignment | crates/tactus/src/audio.rs:459-464 | material stamped with the sender beat at ghost time g is heard at exactly the receiver beat for g, for any two quanta (receiver side: the delta added in `deliver`) |
| BeatGrid.RetempoContinuous | crates/tactus/src/lib.rs:216-228 | a tempo change strictly raises the beat origin, keeps the tempo clamped, and past the old origin moves the current beat by 0 (old tempo up to 1,000,000) or at most 17 micro-beats |
| BeatGrid.RetempoBoundIsTight | crates/tactus/src/lib.rs:216-228 | a concrete tempo change moves the beat by 17 micro-beats |
| BeatGrid.RetempoContinuousIff | crates/tactus/src/lib.rs:216-228 | the current beat is kept at every instant past the old origin exactly if a beat lasted at most a second or will last more than two |
| BeatGrid.RefoundContinuous | crates/tactus/src/engine.rs:542-553 | founding a session keeps the beat exact at that instant and within 1 micro-beat at every other |
| BeatGrid.ClampNearest | crates/tactus/src/math.rs:55-57 | the tempo in use is the nearest one allowed, the requested one exactly if it is in range |
| BeatGrid.RetempoRuns | crates/tactus/src/lib.rs:216-228 | after a tempo change beats run at the requested tempo: those gained over any span differ from what it gives by at most one micro-beat |
| BeatGrid.RetempoMeets | crates/tactus/src/lib.rs:216-228 | old and new timeline meet at the new origin to within 8 micro-beats, before the old origin as after it; the new origin is the current beat or one past the old origin, whichever is greater |
| Codec.OrderIndependent | crates/tactus-wire/src/codec.rs:229-261 | reading a container depends only on the per-field subsequences of its entries: entries of different fields permute, unknown entries may be inserted anywhere, errors included |
| Codec.EntryWritten | crates/tactus-wire/src/codec.rs:191-200 | patching the reserved size afterwards yields exactly one more well-formed entry |
| Codec.NextEntryInverse | crates/tactus-wire/src/codec.rs:249-260 | whatever entry is read is byte for byte the entry writing it would produce |
| Codec.ScanContainer | crates/tactus-wire/src/codec.rs:246-261 | any reader looping over written entries sees exactly those entries, in order |
| Codec.FromBEOfBE | crates/tactus-wire/src/codec.rs:147-175 | reading back a big-endian number within its width gives it |
| Codec.BEOfFromBE | crates/tactus-wire/src/codec.rs:76-102 | and writing back what was read gives the same bytes |
| WireLayout.BigEndian | crates/tactus-wire/src/codec.rs:153-175 | byte i of a number is its digit to base 256, most significant first |
| WireLayout.TwosComplement | crates/tactus-wire/src/codec.rs:165-175 | negative numbers are in two's complement |
| WireLayout.EntryFields | crates/tactus-wire/src/codec.rs:191-200 | an entry is key, size and value at offsets 0, 4 and 8 |
| WireLayout.KeysSpelled | crates/tactus-wire/src/codec.rs:38-42 | the keys are the four ASCII characters of their names |
| Codec.Writer.CloseEntry | crates/tactus-wire/src/codec.rs:193-200 | the size patched into the buffer is that of the value just written; earlier bytes do not change |
| Codec.Writer.OpenEntry | crates/tactus-wire/src/codec.rs:193-197 | appends the key and a size to be patched |
| Codec.Entries.Next | crates/tactus-wire/src/codec.rs:249-260 | next entry, end, or the error of a size past the end; the rest of the payload advances accordingly |
| Codec.Reader.GetBytes | crates/tactus-wire/src/codec.rs:67-74 | takes exactly n bytes or fails leaving the reader where it was |
| Codec.Reader.GetStr | crates/tactus-wire/src/codec.rs:116-119 | a declared length past the end is an error |
| Discovery.FrameRoundTrip | crates/tactus-wire/src/discovery.rs:147-223 | decoding inverts encoding for every frame within the wire widths, all five entries and their absence |
| Discovery.HeaderRoundTrip | crates/tactus-wire/src/discovery.rs:183-197 | the header alone comes back whatever payload follows, even one that does not parse |
| Discovery.StateRoundTrip | crates/tactus-wire/src/discovery.rs:58-90 | the peer-state payload comes back entry for entry |
| Discovery.StateOrderIndependent | crates/tactus-wire/src/discovery.rs:72-90 | decoding is unchanged by permuting entries of different fields and by unknown entries anywhere |
| Discovery.PayloadOrderIndependent | crates/tactus-wire/src/discovery.rs:72-90 | every payload that decodes is a list of entries, and whatever rearranges them that way decodes to the same state |
| Discovery.LaterEntryWins | crates/tactus-wire/src/discovery.rs:72-90 | leaving out an earlier entry of the same field decodes alike |
| WireLayout.DiscoveryFrame | crates/tactus-wire/src/discovery.rs:147-164 | magic, type, ttl, group and node at offsets 0, 8, 9, 10 and 12, then the entries |
| WireLayout.StateFields | crates/tactus-wire/src/discovery.rs:58-70 | offsets of the fields of a timeline, a transport state and an endpoint |
| WireLayout.DiscoverySize | crates/tactus-wire/src/discovery.rs:147-164 | size of every frame: 107 bytes for the full state of a plain peer over IPv4, 121 with LinkAudio, 20 for a ByeBye |
| Discovery.Encode | crates/tactus-wire/src/discovery.rs:147-164 | the step-by-step writer, with back-patched sizes, produces the specified bytes |
| Discovery.Decode | crates/tactus-wire/src/discovery.rs:199-223 | the step-by-step reader returns the specified frame or the specified error, for every byte string |
| Discovery.ParseState | crates/tactus-wire/src/discovery.rs:72-90 | the entry loop: later entries of a field win, unknown ones are skipped, an over- or under-read value fails the payload |
| Discovery.ParseHeader | crates/tactus-wire/src/discovery.rs:183-197 | header parsing of every byte string |
| Sync.PongRoundTrip | crates/tactus-wire/src/sync.rs:77-154 | decoding an encoded pong returns the echo verbatim for every byte string, even one that looks like entries |
| Sync.EchoRecovers | crates/tactus-wire/src/sync.rs:156-170 | the payload of any ping gives back its host time and previous ghost time |
| Sync.ExchangeRecovers | crates/tactus-wire/src/sync.rs:66-170 | ping, pong, decode, parse: the initiator gets its own two times back |
| Sync.PingRoundTrip | crates/tactus-wire/src/sync.rs:66-102 | a ping decodes to its payload |
| Sync.EncodePing | crates/tactus-wire/src/sync.rs:66-75 | the step-by-step writer produces the specified ping |
| Sync.EncodePong | crates/tactus-wire/src/sync.rs:77-87 | the step-by-step writer produces the specified pong, the echo appended verbatim |
| Sync.PingAnswerable | crates/tactus/src/engine.rs:415-419 | every ping is within the 32 bytes a responder answers |
| WireLayout.MeasurementFrame | crates/tactus-wire/src/sync.rs:66-87 | magic, type and entries; a pong ends with the echo |
| WireLayout.MeasurementSize | crates/tactus-wire/src/sync.rs:66-87 | a ping is 25 bytes, chained 41; a pong is 41 and its echo |
| Sync.Decode | crates/tactus-wire/src/sync.rs:89-154 | parsing of every byte string, step by step |
| Sync.ParseEcho | crates/tactus-wire/src/sync.rs:158-170 | the loop over echo entries, for every byte string |
| AudioWire.FrameRoundTrip | crates/tactus-wire/src/audio.rs:172-297 | decoding inverts encoding for every frame within the wire limits |
| AudioWire.AudioRoundTrip | crates/tactus-wire/src/audio.rs:223-404 | an audio buffer survives the wire exactly when the decoder checks hold of it: chunks present, PCM codec, sample bytes matching the frame count |
| AudioWire.AudioBijection | crates/tactus-wire/src/audio.rs:360-404 | every payload accepted as an audio buffer is that buffer encoded, byte for byte |
| AudioWire.AudioDatagramBijection | crates/tactus-wire/src/audio.rs:172-297 | the same for whole datagrams, header included |
| AudioWire.AnnouncementRoundTrip | crates/tactus-wire/src/audio.rs:299-337 | announcements come back, ping present or absent |
| AudioWire.AnnouncementOrderIndependent | crates/tactus-wire/src/audio.rs:299-337 | decoding is unchanged by permuting entries of different fields and by unknown entries anywhere |
| WireLayout.LaterEntryWins | crates/tactus-wire/src/audio.rs:299-337 | a later entry of a field replaces an earlier one |
| WireLayout.AudioFrame | crates/tactus-wire/src/audio.rs:172-190 | the header under its own magic and six types, then the payload |
| WireLayout.ChunkRecord | crates/tactus-wire/src/audio.rs:228-233 | number, frames, begin and tempo at offsets 0, 8, 10 and 18 |
| WireLayout.BufferFields | crates/tactus-wire/src/audio.rs:223-239 | offset of every field of an audio buffer, each chunk record included |
| WireLayout.FrameTtl | crates/tactus-wire/src/audio.rs:156-170 | requests and announcements stand for five seconds, stop requests and audio for none |
| AudioWire.ByesRoundTrip | crates/tactus-wire/src/audio.rs:339-358 | channel byes come back id for id |
| AudioWire.SamplesRoundTrip | crates/tactus-wire/src/audio.rs:99-114 | decoding encoded samples gives them back |
| AudioWire.SampleBytesRoundTrip | crates/tactus-wire/src/audio.rs:99-114 | encoding decoded bytes gives the bytes back exactly when there is no odd last byte |
| AudioWire.EncodeSamples | crates/tactus-wire/src/audio.rs:107-114 | the loop writes each sample big-endian, in order |
| AudioWire.Encode | crates/tactus-wire/src/audio.rs:172-243 | the step-by-step writer produces the specified bytes for every frame |
| AudioWire.Decode | crates/tactus-wire/src/audio.rs:245-297 | the step-by-step reader returns the specified frame or error for every byte string |
| AudioWire.ParseAudio | crates/tactus-wire/src/audio.rs:360-404 | audio buffer parsing of every byte string, with its four rejections |
| AudioSink.PlanProperties | crates/tactus/src/audio.rs:541-575 | the plan spends the budget exactly, draws between one frame and the cap a chunk, and stops only for want of budget or frames |
| AudioSink.PlanFeasible | crates/tactus/src/audio.rs:541-600 | planner and consumer agree: every planned take finds its frames in the second pass, for any queue, sub-frame residue and empty segments included |
| AudioSink.ConsumeConserves | crates/tactus/src/audio.rs:578-600 | cutting moves whole frames from queue to datagram in order, none lost or duplicated |
| AudioSink.DrainConserves | crates/tactus/src/audio.rs:529-611 | emitted then pending whole frames are the whole frames that were pending, for any queue |
| AudioSink.DrainPacked | crates/tactus/src/audio.rs:529-611 | every datagram has a chunk and leaves less than a record and a frame of budget; what stays pending fills no further datagram |
| AudioSink.DrainNumbers | crates/tactus/src/audio.rs:590-598 | chunk numbers run on consecutively within and across datagrams |
| AudioSink.ReferenceBlock | crates/tactus/src/audio.rs:545-552 | in reference sizing each datagram holds exactly floor(502 / 2ch) frames |
| AudioSink.ReferenceTooWide | crates/tactus/src/audio.rs:545-552 | above 251 channels reference sizing never emits anything |
| AudioSink.EnqueueAppends | crates/tactus/src/audio.rs:471-489 | extension or new segment, frame-aligned material is appended to the pending stream |
| AudioSink.RunConserves | crates/tactus/src/audio.rs:435-611 | over any run of writes, emitted then pending is what was pending then everything written, in either sizing |
| AudioSink.RunPacked | crates/tactus/src/audio.rs:435-611 | over any run, every datagram is well packed and the queue fills no further one |
| AudioSink.RunNumbers | crates/tactus/src/audio.rs:435-611 | over any run, chunk numbers are consecutive |
| AudioSink.StreamRefinement | crates/tactus/src/audio.rs:435-611 | reference sizing: the i-th datagram holds exactly the i-th block of the concatenated written stream, and there are as many as whole blocks, whatever the write boundaries, tempo changes and segmentation |
| AudioSink.SplitIndependence | crates/tactus/src/audio.rs:435-611 | two runs writing the same stream emit the same samples datagram by datagram |
| FrameCounts.RunsAfterConsume | crates/tactus/src/audio.rs:578-600 | seen as frame counts, cutting a datagram drops its frames from the front of the queue |
| FrameCounts.RunsAfterEnqueue | crates/tactus/src/audio.rs:471-489 | a write extends the last run or adds one, sub-frame segments aside |
| Splits.GrownPlan | crates/tactus/src/audio.rs:553-576 | planner law: growing the last run of a spent plan leaves its frames unchanged exactly if the plan is closed - another frame waits already, no frame fits, or the last chunk is at the cap - and else takes more |
| Splits.DrainEmits | crates/tactus/src/audio.rs:529-611 | what draining emits and leaves depends on the frame counts of the runs alone |
| Splits.GrowthAfterEmit | crates/tactus/src/audio.rs:529-611 | draining before the last run grows emits the datagrams, leaves the runs and ends as open as draining after it, exactly if the last datagram emitted was closed |
| Splits.RunAfterEmit | crates/tactus/src/audio.rs:529-611 | a run queued behind never changes what was emitted before it |
| Splits.DrainBetweenWrites | crates/tactus/src/audio.rs:471-611 | for any queue and write, in either sizing, draining before and after the write emits the same samples as draining once after it exactly if: the write holds no frame; or all was emitted and the write does not join the run an open datagram ended with; or some stayed and the write joins it either way or neither, or packs the same |
| Splits.OpenDatagramShows | crates/tactus/src/audio.rs:471-611 | so while cutting does not change whether the write joins, draining in between shows exactly if the write has a frame, joins the run, and the last datagram was open |
| Splits.OneRunPlan | crates/tactus/src/audio.rs:541-576 | fill sizing: one run alone goes out from the threshold on (535 frames in mono, floor(1096/2ch) above), up to a block (548, floor(1122/2ch)) |
| Splits.FillBlocksIff | crates/tactus/src/audio.rs:435-611 | continuous material in fill sizing: the datagrams are the full blocks of the stream exactly if after no write the frames past the last block reach the threshold |
| Splits.FillSplitIff | crates/tactus/src/audio.rs:435-611 | of two continuous runs writing the same stream, one without early material, the datagrams agree exactly if the other is without it too |
| Splits.FillDependsOnSplits | crates/tactus/src/audio.rs:574-576 | a concrete stream goes out in a first datagram of 535 frames or of 548, as it is written in two pieces or one |
| AudioSender.WriteAll | crates/tactus/src/lib.rs:365-385 | successive `Sink.Write` calls on one object in one format compute exactly the run of those writes with the requesters live at each |
| AudioSender.SinkRunsWrites | crates/tactus/src/audio.rs:435-517 | and with a requester live throughout that is the run characterised above; without one at the end, nothing stays pending |
| AudioSender.LiveIff | crates/tactus/src/audio.rs:491-497 | a request is live exactly until its expiry |
| AudioSender.QueuedStream | crates/tactus/src/audio.rs:466-489 | in the format of the last write material joins the pending stream; in another it is all that is pending |
| AudioSender.FormatChangeForgets | crates/tactus/src/audio.rs:466-470 | a sink that changes format goes on like one that was never written to |
| AudioSender.SinkNumbers | crates/tactus/src/audio.rs:491-504 | whoever listens at which write, chunk numbers run on over what is emitted; writes nobody hears use none and leave nothing |
| AudioSender.Sink.PlanDatagram | crates/tactus/src/audio.rs:553-576 | first pass: nested loops over segments compute the specified plan |
| AudioSender.Sink.ConsumePlan | crates/tactus/src/audio.rs:578-600 | second pass: the cutting loop takes the planned chunks off the queue, never missing frames |
| AudioSender.Sink.DrainDatagrams | crates/tactus/src/audio.rs:529-611 | the loop terminates and emits every full datagram, leaving the specified queue and next number |
| AudioSender.Sink.Write | crates/tactus/src/audio.rs:435-517 | format change, contiguity, requester expiry, silence without requesters and draining, with the whole new sink state |
| AudioSender.TakesFitU16 | crates/tactus/src/audio.rs:580-590 | planned chunks fit the 16-bit frame count of the wire |
| StampDrift.StampDrift | crates/tactus/src/audio.rs:578-600 | after k cuts the stamp of the next chunk is within k/2 micro-beats of the exact line through the segment's first stamp |
| StampDrift.LaterWriteDrift | crates/tactus/src/audio.rs:471-489 | m cuts after a later write was appended, the stamp of the next chunk is within (m+3)/2 of the line through that write's stamp, at the frame where its material began |
| EmittedStamps.EmittedDrift | crates/tactus/src/audio.rs:435-611 | over any run of writes in either sizing, the stamp of every emitted chunk has the tempo of the write its first frame came from and is within (m+3)/2 micro-beats of the line through that write's stamp, m chunks having been cut since |
| EmittedStamps.EmittedHasWrite | crates/tactus/src/audio.rs:435-611 | and there is such a write for every emitted chunk |
| StampDrift.LifeTracks | crates/tactus/src/audio.rs:142-147 | whatever a segment's stamp was near it stays near, each cut adding half a micro-beat |
| AudioSource.Source.Deliver | crates/tactus/src/audio.rs:277-311 | chunks are cut in order, re-mapped by the session offset, counted, and only the newest 256 kept |
| AudioSource.Source.Count | crates/tactus/src/audio.rs:287-295 | the counter steps as specified on first, expected, skipped and late numbers |
| AudioSource.Source.Poll | crates/tactus/src/lib.rs:389-396 | hands over everything since the last poll and empties the inbox |
| AudioSource.LossExactIff | crates/tactus/src/audio.rs:283-295 | the count equals the numbers still missing after every arrival exactly if every late arrival while something is missing is itself a missing number: not below the first, not seen before |
| AudioSource.LossExact | crates/tactus/src/audio.rs:283-295 | so distinct numbers none below the first, in any order, give exactly the count of numbers missing below the next expected |
| AudioSource.LossNeverOverReported | crates/tactus/src/audio.rs:283-295 | for any arrivals at all the count is at most the numbers still missing |
| AudioSource.LossOrderIndependent | crates/tactus/src/audio.rs:283-295 | the count depends on which numbers arrived, not on their order |
| AudioSource.DuplicateUnderReports | crates/tactus/src/audio.rs:293-294 | a duplicated late chunk makes the count too small: concrete arrivals |
| AudioSource.LastOfIs | crates/tactus/src/audio.rs:305-309 | the newest 256, counted from the end |
| HeardStamps.ReceivedAre | crates/tactus/src/audio.rs:277-312 | the k-th chunk heard is the k-th sent, its stamp moved by the session offset, with exactly the samples of its frames |
| HeardStamps.HeardFrames | crates/tactus/src/audio.rs:277-312 | over any run of writes the k-th chunk heard holds exactly its frames of the written stream |
| HeardStamps.HeardInTime | crates/tactus/src/audio.rs:459-464 | material written at the application's beat of an instant is heard within (m+3)/2 micro-beats of the line through the subscriber's own beat of that instant, for any two quanta, m chunks having been cut since the write |
| AudioStream.PackedDecodes | crates/tactus-wire/src/audio.rs:360-404 | every well-packed datagram passes all decoder checks |
| AudioStream.FillFits | crates/tactus/src/audio.rs:541-576 | fill sizing: an encoded datagram is at most 1196 bytes, within one record and frame of it, every chunk at most 512 frames |
| AudioStream.ReferenceFits | crates/tactus/src/audio.rs:545-552 | reference sizing: within 1200 bytes exactly when the chunks are within a bound depending on the width, at least 25 |
| ChunkCounts.LeadingPlan | crates/tactus/src/audio.rs:553-572 | without record cost a plan has at most r chunks exactly if the first r runs cover the frames the budget allows |
| ChunkCounts.ReferenceFullIff | crates/tactus/src/audio.rs:573-576 | a queue fills a reference datagram exactly if it holds a block of frames |
| ChunkCounts.QueueFits | crates/tactus-wire/src/audio.rs:223-243 | the next datagram of any queue fits 1200 bytes exactly if as many runs as there is room for chunks cover a block |
| ChunkCounts.ChunksPerBlock | crates/tactus/src/audio.rs:435-611 | over any run of writes a reference datagram has at most as many chunks as writes touch its block of the stream |
| ChunkCounts.TouchedBlockFits | crates/tactus-wire/src/audio.rs:223-243 | so a block touched by no more writes than there is room for chunks always fits |
| ChunkCounts.OversizeDatagram | crates/tactus-wire/src/audio.rs:223-243 | from a fresh sink, 26 one-frame mono writes of alternating tempo and one of 225 frames emit a datagram of 27 chunks and 1252 bytes |
| AudioStream.ChunkRoomIsTight | crates/tactus/src/audio.rs:545-552 | at 1 and at 251 channels that bound is 25 |
| AudioStream.WireTransparent | crates/tactus/src/audio.rs:502-517 | hearing encoded datagrams does exactly what absorbing their material would |
| AudioStream.InboxKeepsNewest | crates/tactus/src/audio.rs:307-309 | after any number of datagrams the unpolled inbox is the newest 256 chunks delivered |
| AudioStream.LosslessDelivery | crates/tactus/src/audio.rs:277-311 | well-packed numbered datagrams are delivered whole with no loss counted |
| AudioStream.EndToEnd | crates/tactus/src/audio.rs:277-611 | a fresh sink, any frame-aligned writes, either sizing, a listener that is not the sender: delivered samples then pending samples are the written stream, no loss is counted, and the receiver expects the sender's next number |
| AudioStream.HearDatagrams | crates/tactus/src/audio.rs:263-273 | datagrams arriving at one subscription object do what the fold over them says |
| AudioStream.Perform | crates/tactus/src/audio.rs:277-611 | the same end to end on the objects: writes on a `Sink`, bytes encoded and decoded, deliveries on a `Source` |
| Announcement.RoundCorrect | crates/tactus/src/audio.rs:336-373 | any channel list is split in order without loss or duplication into at least one message of at most 1196 bytes, none empty but for an empty list |
| Announcement.RoundGreedy | crates/tactus/src/audio.rs:354-361 | no message could have taken the next channel |
| Announcement.BuildRound | crates/tactus/src/audio.rs:336-373 | the loop builds that round; each message decodes to its share, only the first carries the ping |
| Announcement.ByesCorrect | crates/tactus/src/audio.rs:407-430 | withdrawn ids are split in order into messages of 1 to 145 ids |
| Announcement.ByeMessageFits | crates/tactus/src/audio.rs:417-425 | such a message is at most 1192 bytes and decodes to its ids |
| Directory.FirstAnswered | crates/tactus/src/audio.rs:203-214 | only the first message of a round is answered, with the time it was begun |
| Directory.RoundHeard | crates/tactus/src/audio.rs:203-236 | a peer that knows the publisher's audio endpoint knows after a round exactly its channels besides those it knew, each for five seconds from its message |
| Directory.StrangerIgnored | crates/tactus/src/audio.rs:217-222 | from anyone else nothing is learned |
| Directory.RoundUndone | crates/tactus/src/audio.rs:256-262 | the byes for the same channels leave none of them, and every other channel as it was |
| Election.JoinAntisymmetric | crates/tactus/src/engine.rs:514-519 | opposite measurements never make both peers switch; an abandoned session is refused |
| Election.JoinSilentIff | crates/tactus/src/engine.rs:514-519 | neither session draws the other exactly when the clocks differ by exactly the threshold |
| Election.TotalOrderIff | crates/tactus/src/engine.rs:508-519 | on a set of sessions the rule is a strict total order exactly when no two are the threshold apart and no ascending id chain drifts across the band |
| Election.CycleExists | crates/tactus/src/engine.rs:508-519 | three sessions that chase each other |
| Election.JoinsBounded | crates/tactus/src/engine.rs:510-538 | any run over a consistently ranked set of n sessions makes at most n - 1 joins |
| Election.RestsOnlyAtTop | crates/tactus/src/engine.rs:510-538 | a peer is at rest exactly at the unique top |
| Election.ElectionAgrees | crates/tactus/src/engine.rs:510-538 | whoever evaluated every session, in any order and from any start, holds the top one |
| Election.ElectShift | crates/tactus/src/engine.rs:510-519 | the election does not depend on the clock offsets are measured against |
| Election.PeersAgree | crates/tactus/src/engine.rs:510-538 | two peers that evaluated every session, each against its own clock, hold the same one |
| ClockEstimate.EstimatorsNear | crates/tactus/src/engine.rs:452-462 | with one-way delays in [0, d] both midpoint estimators are within d/2 of the true offset |
| ClockEstimate.MedianRobust | crates/tactus/src/engine.rs:740-750 | the rounded median is within d/2 + 1/2 whenever a strict majority of samples is within d/2, odd and even counts, whatever the rest are |
| ClockEstimate.MedianNearest | crates/tactus/src/engine.rs:740-750 | the median is the whole microsecond nearest to the middle sample or the mean of the middle two, a tie going away from zero |
| ClockEstimate.MedianRound | crates/tactus/src/engine.rs:740-750 | sorts in place - a permutation in order - and returns the rounded median |
| ClockEstimate.SortedUnique | crates/tactus/src/engine.rs:740-750 | the result does not depend on the order of arrival |
| Gossip.MergeAllIs | crates/tactus/src/engine.rs:294-304 | after any snapshots the register holds the greatest key: its own value, or the first received with that key |
| Gossip.ValueOrderIndependentIff | crates/tactus/src/engine.rs:294-315 | the value is independent of order and repetition exactly when the received values with the winning key agree |
| Gossip.TimelineOrderIndependentIff | crates/tactus/src/engine.rs:294-304 | the same for timelines, tempo re-clamping included |
| Gossip.EqualOriginsDoNotMerge | crates/tactus/src/engine.rs:297-297 | two tempo changes at one beat origin: the first heard stays |
| Gossip.StepMonotone | crates/tactus/src/engine.rs:292-315 | no step of any peer lowers anyone's beat origin or transport timestamp |
| Gossip.RunSafe | crates/tactus/src/engine.rs:273-315 | n peers, any interleaving, loss, duplication, reordering: nothing held goes back, and everything held or sent is the initial state or some peer's local edit |
| Gossip.DeliveredStays | crates/tactus/src/engine.rs:292-315 | once delivered a snapshot a peer stays at or ahead of it |
| Gossip.KeyOrderIndependent | crates/tactus/src/engine.rs:294-315 | the key reached depends only on which snapshots were received, not on order or repetition |
| Gossip.TimelineConverges | crates/tactus/src/lib.rs:216-228 | if one origin exceeds all others ever made, a peer ends with exactly that timeline if and only if it made it by its own tempo change or was delivered it (or it is the initial one) |
| Gossip.TransportConverges | crates/tactus/src/lib.rs:262-275 | the same if and only if for the latest transport action |
| Gossip.TimelineWasLearned | crates/tactus/src/engine.rs:292-304 | a timeline is only ever held by who started with it, made it or was delivered it |
| Gossip.FullExchange | crates/tactus/src/engine.rs:231-315 | once edits stop, delivering everyone's snapshot to everyone else - own frames are ignored - leaves all with the greatest origin and latest timestamp there were; they hold the same timeline exactly if those with that origin agreed on it, and likewise the transport |
| Gossip.RestampIs | crates/tactus/src/lib.rs:262-275 | a local transport change carries the flag asked for at the current beat, under the least timestamp neither used nor past |
| Gossip.RestampWins | crates/tactus/src/lib.rs:262-275 | whoever holds no later action takes it over as it is |
| SessionLaws.GossipDelivers | crates/tactus/src/engine.rs:291-315 | a frame of the own session merges the view it carries, each missing entry leaving its part alone; nothing else changes |
| SessionLaws.GossipedAllMerges | crates/tactus/src/engine.rs:291-315 | after any such frames the peer holds the merge of the timelines and of the transport actions among them |
| SessionLaws.GossipReachesTop | crates/tactus/src/engine.rs:291-315 | so it ends with the greatest beat origin and the latest timestamp it held or heard |
| SessionLaws.CachedMerges | crates/tactus/src/engine.rs:316-329 | the cache of a foreign session is the same register, unclamped, starting with the first timeline heard; other sessions keep theirs |
| SessionLaws.ForeignGossipActs | crates/tactus/src/engine.rs:316-338 | gossip of a measured session is acted on at once: it cannot draw the peer any more, it is held exactly if it beat the one held, and a joiner plays the newest of the timelines cached and just heard |
| SessionLaws.JoinedPlays | crates/tactus/src/engine.rs:510-538 | a switch exactly if the rule says so: the session, its measured offset, the transport reset, and at every local time the beat the cached timeline gives |
| SessionLaws.JoinersPlayTogether | crates/tactus/src/engine.rs:510-538 | whoever joins and a member whose timeline was cached hear the same grid at any instant and quantum, apart by no more than the error of the measurement is worth |
| SessionLaws.FoundedContinues | crates/tactus/src/engine.rs:540-562 | a fresh session keeps the local beat, exactly at that instant and within one micro-beat at every other, and the transport with it |
| SessionLaws.ConcludedJoin | crates/tactus/src/engine.rs:481-486 | a finished join measurement is put to the rule: that session is held, at that offset, exactly if it beat the one held; it cannot draw the peer any more |
| SessionLaws.ConcludedRemeasure | crates/tactus/src/engine.rs:481-493 | a finished re-measurement corrects the offset of the current session and changes no session |
| SessionLaws.MeasurementTrue | crates/tactus/src/engine.rs:430-493 | if a strict majority of all samples is within d/2 of the true offset, the one retained, and used if the session is held, is within (d+1)/2 |
| EngineState.EvaluatedKeeps | crates/tactus/src/engine.rs:510-538 | a join keeps the session and task invariants, is stable under re-evaluation, and the abandoned session cannot draw the peer back |
| EngineState.RefoundedKeeps | crates/tactus/src/engine.rs:542-562 | founding under an unused id keeps them too |
| EngineState.StartedKeeps | crates/tactus/src/engine.rs:379-400 | starting the next measurement keeps one task a session |
| EngineState.RetainedKeeps | crates/tactus/src/engine.rs:481-491 | retaining a result keeps the retained offset of the current session equal to the one in use |
| EngineState.MeasurementOverIff | crates/tactus/src/engine.rs:451-479 | from any point within budget, under any mixture of expiries and pongs: the measurement is over exactly if the expiries exceed the retries or the samples exceed the required number; until then both counts are exact |
| EngineState.MeasurementEnds | crates/tactus/src/engine.rs:451-479 | so if every pong brings samples a new measurement is over by the 106th event |
| EngineState.EmptyPongsNeverEnd | crates/tactus/src/engine.rs:455-478 | and pongs without samples alone never end one |
| EngineState.ClosedExactly | crates/tactus/src/engine.rs:579-599 | closing a gateway removes exactly the entries, channels and paths learned through it and the channels and paths of peers gone with it |
| EngineState.PrunedKeeps | crates/tactus/src/engine.rs:638-653 | pruning removes exactly the expired entries, the channels of peers left absent, and the paths of peers gone with it |
| EngineState.DepartedExactly | crates/tactus/src/engine.rs:264-266 | a ByeBye removes exactly that entry and, on all gateways, the channels and paths of the node |
| EngineLaws.FoundedIff | crates/tactus/src/engine.rs:601-610 | a session is founded exactly if a fellow member was seen and no entry names the session any more |
| EngineLaws.NobodyLeftIff | crates/tactus/src/engine.rs:579-596 | nobody is left after a goodbye, a closed gateway or a pruning exactly if nobody else was in it, on another gateway, or still in time |
| EngineLaws.PassFoundedIff | crates/tactus/src/engine.rs:638-658 | a pass founds one only if it pruned |
| EngineLaws.StartedKeepsLine | crates/tactus/src/engine.rs:379-400 | starting keeps the order of the tasks and drops only a head through a closed gateway; a measurement starts fresh, its first retry 50 ms on |
| EngineLaws.ServedInOrder | crates/tactus/src/engine.rs:379-400 | tasks through open gateways are measured in the order they were queued |
| EngineLaws.JoinMeasures | crates/tactus/src/engine.rs:343-377 | gossip from a session not measured yet: pongs count from the founder's endpoint if known, else from the gossiping peer's |
| EngineLaws.RemeasuredIff | crates/tactus/src/engine.rs:703-737 | a re-measurement is queued exactly if someone else founded the session, it has no task, and its founder or a member can be measured |
| EngineLaws.DueRemeasures | crates/tactus/src/engine.rs:686-697 | a pass that finds one due measures whoever can be, and the next is due in 30 s |
| EngineLaws.SilenceRetriesOrMovesOn | crates/tactus/src/engine.rs:660-685 | a silent measurement is retried while retries are left, else the next task has its turn |
| EngineLaws.RemeasureDue | crates/tactus/src/engine.rs:481-503 | the next re-measurement is due 30 s after a join, a finished or a failed re-measurement, and else as before |
| EngineLaws.RetryAfter | crates/tactus/src/engine.rs:467-474 | a retry, like a pong, gives the measured peer 50 ms and keeps its samples |
| EngineLaws.WithoutGatewayOrder | crates/tactus/src/engine.rs:590-590 | what waits for other gateways keeps its order |
| EngineLaws.ChainedIff | crates/tactus/src/engine.rs:466-477 | a pong chains a ping exactly if it is of the measurement in flight, names its session, the gateway is open and samples are missing |
| EngineLaws.ChainedSamplesNear | crates/tactus/src/engine.rs:450-477 | the pong that answers a chained ping brings two samples, both within d/2 of the true offset |
| EngineLaws.PongCounts | crates/tactus/src/engine.rs:449-477 | while samples are missing a pong adds its own; nothing else changes but the deadline |
| EngineLaws.WakesInTime | crates/tactus/src/engine.rs:615-701 | nothing the engine knows of is due before the instant a pass returns, but a broadcast deferred by a session founded in it and the retry of a measurement started in it |
| EngineLaws.ChannelsLeftExactly | crates/tactus/src/audio.rs:683-691 | no channel goes before its deadline, none stays a second past it, and every expired one goes or none |
| EngineLaws.ChannelKeptIff | crates/tactus/src/engine.rs:579-599 | after a closed gateway or a pruning a channel is known exactly if it was learned elsewhere and its publisher still has an entry there, or one in time |
| EngineState.ForgottenStep | crates/tactus/src/engine.rs:592-596 | forgetting the lost peers one by one, in any order, forgets the set |
| EngineState.RoundsSpread | crates/tactus/src/engine.rs:216-227 | any two Alive rounds of an epoch are at least 50 ms times their distance apart |
| Engine.Engine.constructor | crates/tactus/src/engine.rs:130-167 | a new engine is valid, disabled, founds its own session and holds nothing |
| Engine.Engine.SendAlive | crates/tactus/src/engine.rs:203-212 | only at least 50 ms after the last round; afterwards peers know the current state and nothing is due |
| Engine.Engine.ScheduleBroadcast | crates/tactus/src/engine.rs:216-227 | sends now or sets the due time to exactly 50 ms after the last round; no change is ever left unannounced |
| Engine.Engine.SetTempo | crates/tactus/src/lib.rs:216-228 | the new timeline, strictly raised origin, announced or due |
| Engine.Engine.SetIsPlaying | crates/tactus/src/lib.rs:262-275 | strictly later timestamp when synchronising, local otherwise |
| Engine.Engine.EnableStartStopSync | crates/tactus/src/lib.rs:281-287 | adopts the held transport unless it is the default |
| Engine.Engine.ProcessPeerState | crates/tactus/src/engine.rs:273-339 | peer refreshed; gossip of the own session merged and relayed, of another cached and then joined or queued for measurement |
| Engine.Engine.MergeGossip | crates/tactus/src/engine.rs:292-315 | both registers merged, every win announced or due |
| Engine.Engine.ForeignGossip | crates/tactus/src/engine.rs:316-338 | timeline cached under the priority rule; measured sessions put to the join rule, others measured |
| Engine.Engine.ProcessByeBye | crates/tactus/src/engine.rs:264-269 | that entry and the publisher's channels and paths go; losing the last member founds a session |
| Engine.Engine.QueueMeasurement | crates/tactus/src/engine.rs:343-377 | one task a session, towards the founder if visible |
| Engine.Engine.StartNextMeasurement | crates/tactus/src/engine.rs:379-400 | takes the head of the queue when idle; a task through a closed gateway is dropped |
| Engine.Engine.HandlePong | crates/tactus/src/engine.rs:430-479 | only the measured endpoint counts; a foreign session fails the measurement; otherwise samples accumulate, the median of enough of them concludes it, and until then the next ping is chained with this pong's ghost time |
| Engine.Engine.MeasurementSucceeded | crates/tactus/src/engine.rs:481-493 | result retained, then join rule or corrected offset, then the next measurement |
| Engine.Engine.MeasurementFailed | crates/tactus/src/engine.rs:495-504 | a join is forgotten, a re-measurement rescheduled |
| Engine.Engine.JoinRule | crates/tactus/src/engine.rs:511-519 | the branch taken is the join rule of the election |
| Engine.Engine.EvaluateJoin | crates/tactus/src/engine.rs:510-538 | switches exactly when the rule says so; old transform retained, transport reset, announced or due |
| Engine.Engine.ResetSession | crates/tactus/src/engine.rs:542-562 | fresh identity and transform, timeline and transport continued at the current beat |
| Engine.Engine.CheckSessionLoss | crates/tactus/src/engine.rs:601-610 | resets exactly when a member was seen and none is left |
| Engine.Engine.OpenGateway | crates/tactus/src/runtime.rs:83-101 | the id was never used before |
| Engine.Engine.CloseGateway | crates/tactus/src/engine.rs:579-599 | says bye under the old identity if it was open, removes what was learned through it, drops its queued tasks, then handles session loss; the measurement in flight stays |
| Engine.Engine.Enable | crates/tactus/src/runtime.rs:189-241 | fresh identity, nothing imported but the tempo, an id for every gateway that opens and none for one that fails, first round at once |
| Engine.Engine.Disable | crates/tactus/src/runtime.rs:245-265 | everyone and everything due is forgotten, gateway ids are not reset |
| Engine.Engine.HousekeepingPass | crates/tactus/src/engine.rs:615-701 | all timers of a pass in their order, with rounds, pruning, retries, re-measurement and channel timeouts, the invariant kept; the instant returned lies ahead, is a deadline there is or was, and covers every deadline but those of `Wakeups.CoversAllIff` |
| Wakeups.CoversAllIff | crates/tactus/src/engine.rs:615-701 | that instant covers every pending deadline exactly if it covers a broadcast deferred by a session founded in the pass and the retry of a measurement started in it |
| Engine.Engine.RetryTimer | crates/tactus/src/engine.rs:660-685 | a silent measurement spends a retry or fails |
| Engine.Engine.QueueRemeasure | crates/tactus/src/engine.rs:703-737 | founders never re-measure; the founder, else a member, is the target |
| Engine.Engine.PeerLeft | crates/tactus/src/audio.rs:615-621 | a departed publisher's channels and paths go on all gateways |
| Engine.Engine.ForgetAbsent | crates/tactus/src/engine.rs:592-596 | exactly the lost peers without another entry are forgotten |
| Engine.Engine.ChannelTimer | crates/tactus/src/audio.rs:683-691 | once one channel is silent past its padding, every expired one goes |
| Engine.Engine.EnableAudio | crates/tactus/src/audio.rs:716-723 | the advertisement changes and is announced or due |
| Engine.Engine.DisableAudio | crates/tactus/src/audio.rs:725-731 | the audio directory goes and the change is announced or due |
| Engine.Engine.HandleAnnouncement | crates/tactus/src/audio.rs:203-236 | channels are learned only from a known audio endpoint, refreshed with the announced lifetime, others untouched |
| EngineState.ListedExactly | crates/tactus/src/audio.rs:223-234 | refreshing the listed channels one after the other gives exactly the listed channels of that gateway the new entry; every other one stays |
| Engine.Engine.HandleChannelByes | crates/tactus/src/audio.rs:256-262 | only the publisher's own channels on that gateway go |
| Engine.Engine.HandleAudioPong | crates/tactus/src/audio.rs:237-241 | a path to that peer through that gateway exists |
| Engine.Engine.DropTasks | crates/tactus/src/engine.rs:590-590 | the queue keeps its order but for the closed gateway's tasks |
| Engine.WithoutGatewayMembers | crates/tactus/src/engine.rs:590-590 | exactly the tasks through other gateways stay |
| Engine.WithoutGatewayKeeps | crates/tactus/src/engine.rs:590-590 | dropping them keeps the queue invariant |
| Dispatch.HandleDiscovery | crates/tactus/src/engine.rs:231-271 | for every byte string: a stale receiver, our own frame, a foreign group or a malformed datagram changes nothing; an Alive is answered with the state before processing even if its payload does not parse; an admitted frame is processed |
| Dispatch.HandleMeasurement | crates/tactus/src/engine.rs:402-428 | for every byte string: any ping up to 32 bytes is answered with our session, ghost time and its payload verbatim, changing nothing; a pong reaches the measurement in flight and may chain a ping, an unparsable echo counting as empty |
| Dispatch.HandleAudio | crates/tactus/src/audio.rs:181-275 | for every byte string: admission, the answer to an embedded ping before endpoint admission, the exact change of the channel and path directory, of the requesters of the sink named and of the subscription reached; every other sink and subscription is unchanged |
| Dispatch.ServeChannels | crates/tactus/src/audio.rs:242-273 | a request or stop request reaches the one sink it names, a buffer of our session the one subscription on its channel |
| Dispatch.RequestLives | crates/tactus/src/audio.rs:242-255 | a request is live for exactly its ttl unless repeated, a stop request ends it, and no other requester or sink is touched |
| Meeting.SnapshotTells | crates/tactus/src/engine.rs:185-193 | two engines advertise alike exactly if they would tell the peers the same |
| Meeting.SnapshotHeard | crates/tactus/src/engine.rs:185-193 | whoever hears a frame in the same session takes over the sender's view, and knows where to measure it and where its channels come from |
| Meeting.HearMembers | crates/tactus/src/engine.rs:273-315 | on the object: any frames of the session leave the merge of the timelines and transport actions they carried, told to the peers or due |
| Meeting.EncodedAdmitted | crates/tactus/src/engine.rs:231-256 | an encoded discovery frame is admitted exactly by other nodes if it is of group 0 |
| Meeting.EncodedHeard | crates/tactus/src/audio.rs:181-189 | the same for audio frames, while the receiver is live and LinkAudio is on |
| Meeting.SenderKnown | crates/tactus/src/engine.rs:273-289 | an admitted frame leaves its sender known through that gateway, as described, for its ttl |
| Meeting.GoodbyeHeard | crates/tactus/src/engine.rs:264-269 | a ByeBye leaves the sender unknown through that gateway; a session is founded exactly if a fellow member was seen and nobody else is left |
| Meeting.EchoTimes | crates/tactus/src/engine.rs:449-451 | a pong gives back the times of the ping it answers, none if its echo does not parse |
| Meeting.BufferReaches | crates/tactus/src/audio.rs:263-272 | a buffer reaches the one subscription on its channel, if it is of the session |
| Meeting.Greet | crates/tactus/src/engine.rs:231-315 | two engine objects, an Alive and its Response as bytes: each ends with its own view merged with the one the other had |
| Meeting.GreetingAgreesIff | crates/tactus/src/engine.rs:291-315 | they then agree on the timeline exactly if the origins differed or they agreed before, on the transport likewise |
| Meeting.GossipFollows | crates/tactus/src/engine.rs:305-312 | when synchronising, the application plays as the session's transport says, if there is one: kept by gossip, local changes and joins |
| Meeting.FoundingFollowsIff | crates/tactus/src/engine.rs:555-559 | founding keeps that exactly unless the application plays while the session had no transport and the beat is not zero |
| ClockEstimate.CollectSamples | crates/tactus/src/engine.rs:452-462 | two samples from a complete echo, one without a previous ghost time, none where a time is zero or missing |

## Left out

- Sockets, multicast options, receiver threads, the mutex and the condition variable: handlers run one at a time; an answer is a returned value and an Alive round an entry of a ghost log.
- Interface enumeration and the rescan thread: `OpenGateway` and `CloseGateway` are its two effects.
- Path quality, round-trip averages and the choice of the best path: floating point and hash-map order; a path is only its (peer, gateway).
- Conversions between bpm and tempo, between f64 beats and micro-beats, and `SessionSnapshot` extrapolation: floating point; methods take the converted integers.
- Overflow of 64-bit arithmetic: magnitudes are hypotheses (`FrameInRange`, `AllInRange`) where the wire narrows them.
- The cast `(chunk frames) as u32` and the 32-bit entry sizes: entries and buffers beyond those widths are excluded by the same hypotheses.
- The announcement timer, source keepalive and the requester expiry timer of the audio housekeeping: requester expiry is modelled where it is observable, at the next write.
- Outgoing pings, requests and Alive frames are not composed into bytes by the engine: the frame contents are stated, and the codec round trips cover their bytes.
- Channel names and peer names in the engine's directory, UTF-8 handling, sorting for display, error texts: no property depends on them.
- `simulate_crash`: a hook that deliberately leaves known channels behind.
- Publishing, unpublishing, subscribing and unsubscribing channels: list insertions and removals.
- Convergence of the election when offsets keep changing: the rule need not rank such sets; the exact condition for fixed offsets is `Election.TotalOrderIff`.
- The debug assertion on encoded size is not a step of the model: `ChunkCounts.QueueFits` says when an audio datagram meets it; trial messages of an announcement round may exceed it by one channel before that channel is put back.
- Engine.Engine.Disable: does not state the channel byes and the ByeBye sent on the way out.
- Engine.Engine.DisableAudio: does not state the channel byes sent; `Announcement.ByesCorrect` is about their content.
- Engine.Engine.HandleAudioPong: does not keep the round-trip time of the path, floating point.
- Engine.Engine.HousekeepingPass: runs no announcement, keepalive or requester timer; the earliest of their deadlines is the parameter `others`.
- Codec.Writer.OpenEntry: the closure passed to `entry` becomes the calls between `OpenEntry` and `CloseEntry`.
- AudioSource.LossExact: says nothing about repeated numbers or numbers below the first seen; `AudioSource.LossNeverOverReported` does.
