# Verification of the NAM-Audio-Pipe recorder core

A Dafny 4.11 model of the recording path of NAM-Audio-Pipe, from the real-time
callback to the WAV files, and of three smaller cores beside it.

**Recording.** `Pipeline` is the pool transport as a two-process step system: the
sender acquires, fills and publishes slots and announces formats; the worker pops
descriptors, pairs barriers with control messages, writes and releases. Pool size N,
control capacity C and work capacity W are parameters; the source has W = N + C. Every
step touches one ring or one slot, and results hold for every run, that is every
interleaving. `Pairing`, `PipelineInvariants`, `PipelineRefinement`, `PipelineTheorems`,
`PipelineLimits`, `PipelineDrain`, `PipelineLosses` and `PipelineNumbers` prove slot
ownership, barrier pairing over 16-bit wrap, capacity, the drain, exactness, what an
unclean run costs, and what becomes of every number issued. `Transport` is the same
transport as an object with its rings and preallocated blocks; each of its methods is
proved to be the steps it proved to be the steps it stands for. `Blocks`, `Io`, `WavHeader`, `WavWriter`, `Naming`
and `Session` are the file side: planar blocks, short writes on a backend whose faults
are counted, header patching, the writer of one part with its checkpoints, exclusive
naming, and the session with rollovers and the capture summary. `Parts` says what files a
list of events should leave. `InlineLoop` is the single-ring worker, `DiskWorker` the pool
worker; `PoolResults` compares the two. `Guard` is the shutdown: it shares the transport
and the session with the worker's thread.

**Rebuild handshake.** `Rebuild`, `RebuildLimits` and `RebuildHandler`: the callback
stores two parameters, bumps a generation and sets a flag; the main loop captures,
builds, delivers and clears.

**Signals, promotion.** `Signals` is the staged termination handler, `AbOpt` the order
statistics behind the A/B verdict.

## Where the code is weaker than its documentation

* `src/recording/disk.rs:761` and `:850` read the work ring and the abandonment at
  different times. If the sender announces a format, publishes audio and is dropped in
  between, the worker discards a metadata whose barrier is queued: the documented
  integral drain and ordering fail. `PipelineDrain.EmptyCheckCanLoseFormat` is such a
  run; `PipelineTheorems.DrainIsExact` and `PoolResults.PoolMatchesInline` hold if and
  only if no discard meets a queued barrier of that number (`Pipeline.CleanDiscards`).
  The blocks still come through in order: `PipelineLosses.BlocksAreConserved` holds in
  every run, and
  `PoolResults.OnlyHeadlessBlocksAreMissing` says what the files then lack.
* `src/recording/disk.rs:62-64` promises that a crash loses at most one checkpoint window.
  A whole window or more is at risk exactly while a checkpoint is due and not yet synced
  (`Session.Session.LiveSalvage`): never between two blocks, but from the block that makes
  it due, or for good if that checkpoint fails. One more block is the bound then.
* `src/standalone/pw_host/handlers.rs:702-705` loads the slimmable channel before the
  generation, the reverse of the other handlers. `RebuildLimits.SlimmableCanKeepOldChannel`
  is a run that ends at rest with the old channel count; `Rebuild.QuiescentIsHandled`
  says exactly when.
* `src/standalone/pw_host/handlers.rs:537` clears without the guard and `:927-929`
  checks before it clears, although the comment there calls it identical to the guard.
  `RebuildLimits.LostExactlyBySlips` says exactly when a request is lost.
* `src/recording/wav_header.rs:142` searches the whole header for the letters "fact",
  the patched RIFF size included. `WavHeader.HeaderIsExact` has the one size at which the
  header goes wrong, `WavHeader.AlignedHeaderIsExact` shows that word-aligned templates
  never reach it.

## Model

| member | source | states |
|---|---|---|
| `Blocks.FramesTaken` | src/recording/buffer.rs:108-109 | as many frames as both channels and the block have, and no fewer |
| `Blocks.AlignedBlock.FillPlanar` | src/recording/buffer.rs:107-115 | the left and right views show exactly the frames taken, plane after plane, and nothing behind them changes |
| `Blocks.AlignedBlock.PlanesMeet` | src/recording/buffer.rs:117-181 | the valid region is the left view followed by the right view, of equal length |
| `Blocks.WriteCopyOfSlice` | src/recording/buffer.rs:110-112 | copies a slice to its place and touches nothing else |
| `PipelineInvariants.SoundKept` | src/recording/pool.rs:41-76 | every step of sender and worker keeps: each slot in one place, rings within capacity, consecutive sequence numbers, balanced counters |
| `PipelineInvariants.OwningKept` | src/recording/pool.rs:41-62 | every step keeps each index 0..N in exactly one of free ring, RT-owned, work ring, I/O-owned, lost |
| `PipelineInvariants.ReleaseFits` | src/recording/pool.rs:79-82 | while the worker holds a slot the free ring has room for it |
| `PipelineRefinement.FaithfulSend` | src/recording/transport.rs:181-265 | a sender step keeps written followed by queued equal to confirmed, and every queued barrier paired |
| `PipelineRefinement.FaithfulWork` | src/recording/disk.rs:705-881 | a worker step whose discard, if any, is clean keeps the same |
| `PipelineRefinement.BarrierFindsMetadata` | src/recording/disk.rs:714-736 | the head of the control ring is metadata, and it lies as many numbers behind the barrier in hand as there are control entries to drop before the match |
| `PipelineTheorems.RunKeeps` | src/recording/disk.rs:661-745 | every run is sound; it is faithful as long as its discards are clean, and some confirmed event is out of reach from the first unclean one on |
| `PipelineTheorems.DrainIsExact` | src/recording/disk.rs:747-889 | for every interleaving and every N, C, W: a finished worker wrote exactly the confirmed events in order, if and only if no discard (line 850) dropped a metadata whose barrier was queued |
| `PipelineTheorems.WrittenIsPrefix` | src/recording/disk.rs:661-703 | at any moment of a clean run what is written is a prefix of what was confirmed, and the rings hold the rest in order |
| `PipelineTheorems.WorkKeeps` | src/recording/disk.rs:747-889 | a worker step confirms nothing, refuses nothing and leaves the sender where it is |
| `PipelineTheorems.AtomicPollIsClean` | src/recording/disk.rs:759-856 | if nothing happens between the empty pop and the look at the control ring, every discard is clean |
| `PipelineTheorems.AtomicPollDrainsExactly` | src/recording/disk.rs:790-889 | under that condition a finished worker wrote exactly what was confirmed |
| `PipelineLosses.OnlyFormatsAreLost` | src/recording/disk.rs:747-889 | in every run, unclean ones included, what is written followed by what is in reach is what was confirmed without some formats: no block missing, nothing added, nothing moved |
| `PipelineLosses.BlocksAreConserved` | src/recording/pool.rs:41-62 | in every reachable state the blocks written, then the one a failure left unwritten, then the queued ones read from their slots are the blocks confirmed, in order |
| `PipelineLosses.InHandInWork` | src/recording/disk.rs:705-881 | a worker step takes at most formats out of reach, whether or not the metadata of queued barriers are still there |
| `PipelineLosses.LessKeepsAudio` | src/recording/disk.rs:661-703 | a list without some of its formats has the same blocks in the same order |
| `PipelineLosses.ConfirmedWasAnnounced` | src/recording/transport.rs:181-226 | every format confirmed, pending or in the sender's hand was announced |
| `PipelineLosses.FailedFormatWasAnnounced` | src/recording/disk.rs:719-724 | a format the worker failed on, in any run, is one the sender announced |
| `PipelineLimits.SlotInOnePlace` | src/recording/pool.rs:41-62 | in every reachable state each index is in exactly one place, once, and the reserved barrier index is nowhere |
| `PipelineLimits.BlockReadIsBlockPublished` | src/recording/pool.rs:455-476 | in every run, clean or not, the block in the worker's hand is the confirmed block that follows those written, the one filled at the matching publish, however often its slot was reused; with clean discards it is also the next confirmed event |
| `PipelineLimits.QueuedBarrierHasMetadata` | src/recording/transport.rs:196-225 | queued barriers were issued in increasing order and each still has its own metadata at the place its number says, over any number of 16-bit wraps |
| `PipelineLimits.BarrierAlwaysMatches` | src/recording/disk.rs:714-745 | the barrier loop always reaches the exact match over strictly older metadata; its three warning exits are unreachable in clean runs |
| `PipelineLimits.RetryReusesEntry` | src/recording/transport.rs:197-209 | retrying the pending format pushes only its barrier; its one control entry is the newest and unclaimed |
| `PipelineLimits.RingsNeverFull` | src/recording/pool.rs:64-86 | with W >= N + C neither publish, release nor the barrier push meets a full ring while the sender lives, no barrier is ever pending and no slot is lost except by a failed write |
| `PipelineLimits.BuiltRingsNeverFull` | src/recording/pool.rs:70-86 | the same at the sizes the recorder is built with: 256 slots, 4 control messages, 260 descriptors |
| `PipelineNumbers.PublishedInOrder` | src/recording/transport.rs:196-225 | in every run, over any number of 16-bit wraps, barriers are published with strictly increasing issue numbers, each at most once and never before it was issued; the next number on the wire is the low 16 bits of the count |
| `PipelineNumbers.PublishedAreRecorded` | src/recording/disk.rs:705-745 | in clean runs the barriers published are those handled followed by those queued, and every handled one is older than all metadata still in the control ring |
| `PipelineNumbers.SupersededWasNeverConfirmed` | src/recording/disk.rs:726-730 | a metadata dropped as superseded was issued, but no barrier of the run so far or of any run that continues it carries its number |
| `PipelineDrain.StepTowardsExit` | src/recording/disk.rs:790-881 | once the sender is gone every worker step lowers a bound on the steps left |
| `PipelineDrain.DrainTerminates` | src/recording/disk.rs:790-889 | whatever the disk answers, that many steps bring the worker to its exit |
| `PipelineDrain.ExitIsIntegral` | src/recording/disk.rs:790-881 | at a clean exit of any run both rings are empty, every confirmed block was written in order and only formats can be missing; if nothing was refused the free ring holds every index exactly once |
| `PipelineDrain.UnrefusedIsLossless` | src/recording/guard.rs:46-55 | a clean exit with nothing refused, in any run: every block offered was confirmed and written in order, and every format too if and only if the discards were clean |
| `PipelineDrain.EmptyCheckCanLoseFormat` | src/recording/disk.rs:761-856 | a concrete interleaving of metadata, barrier, audio and drop between the empty pop and the discard: clean exit, nothing refused, and the confirmed format is never written |
| `Io.OverwriteAt` | src/recording/io.rs:36-43 | a positioned write changes its region to the bytes given and nothing else |
| `Io.OverwriteGap` | src/recording/io.rs:36-43 | a write past the end keeps the bytes there were and reads as zeros in between |
| `Io.File.WriteAt` | src/recording/io.rs:29-43 | one submission may fail, store any prefix, or claim more than it was given; anything but a step forward counts as a fault of the backend |
| `Io.File.SyncAll` | src/recording/io.rs:32-33 | success makes the volatile image durable, failure leaves the durable one |
| `Io.WriteAllAt` | src/recording/io.rs:67-105 | for every backend: it ends; it fails exactly when the backend does; on success the whole buffer is stored and nothing else changed; on a backend error or no progress the stored prefix followed by the returned rest is the buffer |
| `WavHeader.Le32RoundTrip` | src/recording/wav_header.rs:114 | four little-endian bytes decode to the word they encode |
| `WavHeader.PositionIsFirst` | src/recording/wav_header.rs:142 | the forward search returns the first matching window or proves there is none |
| `WavHeader.RPositionIsLast` | src/recording/wav_header.rs:118-121 | the backward search returns the last matching window or proves there is none |
| `WavHeader.FindFirst` | src/recording/wav_header.rs:142 | the loop over the header array finds what the forward search specifies |
| `WavHeader.FindLast` | src/recording/wav_header.rs:118-121 | the loop over the header array finds what the backward search specifies |
| `WavHeader.Store` | src/recording/wav_header.rs:114 | overwrites four bytes with the little-endian word and leaves the rest |
| `WavHeader.BuildWavHeader` | src/recording/wav_header.rs:85-161 | patching the template in place gives the specified header, or the specified error: encoder, too short, RIFF size beyond 32 bits, no data chunk, truncated chunk, zero-width frame |
| `WavHeader.HeaderFits` | src/recording/wav_header.rs:102-113 | a header exists exactly while the RIFF size fits 32 bits, and its length does not depend on the audio |
| `WavHeader.FramesFill` | src/recording/wav_header.rs:131-140 | the frame count is the number of whole frames, one 32-bit sample for each channel, in the audio bytes |
| `WavHeader.DataFound` | src/recording/wav_header.rs:118-125 | the backward search finds the data chunk whatever the RIFF size spells |
| `WavHeader.FactFound` | src/recording/wav_header.rs:142-144 | where the forward search for the fact chunk ends: at the size field exactly when the RIFF size spells it |
| `WavHeader.WalkPatched` | src/recording/wav_header.rs:79-84 | a chunk-walking reader of the patched template sees the new data size and frame count and every chunk where it was |
| `WavHeader.HeaderIsExact` | src/recording/wav_header.rs:85-161 | a chunk-walking reader sees RIFF size H-8+n, data size n and n / frame-width frames, nothing else changed, if and only if H-8+n is not 0x74636166 |
| `WavHeader.HeaderMisled` | src/recording/wav_header.rs:141-157 | when the RIFF size spells "fact" the frame count overwrites the id of the format chunk |
| `WavHeader.ExampleIsTemplate` | src/recording/wav_header.rs:86-100 | a word-aligned 56-byte header meets all assumptions made of the encoder's template |
| `WavHeader.AlignedHeaderIsExact` | src/recording/wav_header.rs:85-161 | with a word-aligned template and whole samples the header is always exact |
| `WavWriter.FramesRoundTrip` | src/recording/disk.rs:292-299 | reading the interleaved words back gives the two planes frame by frame |
| `WavWriter.InterleavingRoundTrips` | src/recording/disk.rs:283-299 | the bytes written for a block read back as the block |
| `WavWriter.WavWriter.Interleave` | src/recording/disk.rs:287-299 | the loop fills the reused buffer with exactly the interleaving of the two views |
| `WavWriter.WavWriter.Open` | src/recording/disk.rs:253-273 | on success the file is the header for no audio and nothing else, the offsets start behind it; it fails as malformed exactly if the encoder refuses the format, and otherwise only with the backend, nothing being durable |
| `WavWriter.WavWriter.OverflowMeansNoHeader` | src/recording/disk.rs:314-329 | a block overflows exactly when no header could declare it |
| `WavWriter.WavWriter.Submit` | src/recording/disk.rs:301-307 | the buffer is appended whole, or, if the backend fails, a prefix of it is |
| `WavWriter.WavWriter.WriteBlock` | src/recording/disk.rs:278-314 | appends exactly the block, the 32-bit counter and the offset advance without wrapping; it fails only with the backend, leaving all earlier bytes and all counters |
| `WavWriter.WavWriter.RewriteHeaderAndSync` | src/recording/disk.rs:337-353 | the header can always be built; audio bytes and file length never change; success leaves a durable file that declares exactly the audio counted; it fails only with the backend and leaves the durable image |
| `WavWriter.WavWriter.Checkpoint` | src/recording/disk.rs:355-365 | the same, and the checkpoint counter restarts |
| `WavWriter.WavWriter.Finalize` | src/recording/disk.rs:367-374 | the same at the end of a part |
| `Naming.FilenamesDistinct` | src/recording/wav_header.rs:65-77 | for one timestamp two names agree exactly when suffix and part agree, parts 0 and 1 being one |
| `Naming.TailInjective` | src/recording/wav_header.rs:57-62 | the part and suffix digits can be read back from a name |
| `Naming.DecimalReads` | src/recording/wav_header.rs:65-77 | numbers are written in decimal digits that read back as them, without a leading zero |
| `Naming.NameTells` | src/recording/wav_header.rs:19-77 | timestamp, part and suffix can be read back from a whole name, the timestamps being the two forms the clock gives |
| `Naming.OnePartPerName` | src/recording/wav_header.rs:57-77 | no name belongs to two parts, numbers 0 and 1 being one |
| `Naming.NamesAreLeft` | src/recording/disk.rs:218-249 | a directory of fewer than 2^32 entries never runs out of names |
| `Naming.Directory.OpenExclusive` | src/recording/disk.rs:192-204 | an exclusive open fails on a taken name and never touches that file |
| `Naming.CreateNewCapture` | src/recording/disk.rs:218-249 | creates the least free suffix, keeps every existing entry, ends by the suffix bound; it fails only if the backend does or, exhausted, if all 2^32 names are taken |
| `Parts.PartsTell` | src/recording/disk.rs:897-985 | reading the parts back gives every event from the first format on, once, in order |
| `Parts.PartsRoundTrip` | src/recording/disk.rs:897-985 | the parts tell the whole list exactly when it starts with a format |
| `Parts.RolloverOnlyWhenFull` | src/recording/disk.rs:1093-1118 | every part fits its RIFF field, and a rolled part has the format of the one before, which had no room for its first block |
| `Parts.PartsUnique` | src/recording/disk.rs:991-1035 | any parts that tell the events, fit, and roll over only when they must are the parts the session writes |
| `Parts.HeadlessIsAudio` | src/recording/disk.rs:1098-1100 | what precedes the first format is blocks, and the rest holds all other blocks in order |
| `Parts.InterruptedTells` | src/recording/disk.rs:1093-1136 | whatever a failure leaves of one event, the parts tell the events before it, or that one too |
| `Session.CaptureSummary.PushSegment` | src/recording/summary.rs:50-53 | appends a segment |
| `Session.CaptureSummary.CountBlock` | src/recording/summary.rs:55-64 | adds frames and bytes to the newest segment only, and to none if there is none |
| `Session.CaptureSummary.TotalBytes` | src/recording/summary.rs:66-69 | the sum of the segments' bytes |
| `Session.Session.constructor` | src/recording/disk.rs:904-906 | a session starts with no writer, no part and an empty summary |
| `Session.Session.CloseWriter` | src/recording/disk.rs:999-1006 | takes and finalizes the live writer: on success every part is whole; it fails only with the backend, and then the last part keeps exactly the image of its last sync, at most one interval and one block short |
| `Session.Session.LiveSalvage` | src/recording/disk.rs:53-66 | while a part is live its durable bytes are exactly what was last synced, at most one interval and one block behind, and a whole interval behind exactly when a checkpoint is due |
| `Session.Session.Create` | src/recording/disk.rs:192-206 | a new file under the part's own name with the least free suffix, with its first header, every existing entry kept; it fails only for a refused format, no name left or a fault |
| `Session.Session.NextFile` | src/recording/disk.rs:1008-1009 | the part counter advances and the new file is named for that part |
| `Session.Session.OpenNewPart` | src/recording/disk.rs:991-1035 | finishes the live part and starts an empty one, registered in the summary under a name of its own part number; existing entries kept; it fails only for a refused format, no name left or a fault, and then the last part has no less synced than before |
| `Session.Session.MakeRoom` | src/recording/disk.rs:1101-1117 | rolls over exactly when the part is full, and then the block fits |
| `Session.Session.Append` | src/recording/disk.rs:1119-1124 | writes the block to the live part and counts its frames and bytes on its segment; what was synced stays synced, write failure or not |
| `Session.Session.CheckpointIfDue` | src/recording/disk.rs:1128-1133 | a due checkpoint makes everything written durable, and none is due afterwards; a failed one leaves exactly what was synced before |
| `Session.Session.AppendAndCheckpoint` | src/recording/disk.rs:1119-1133 | the block is written and counted and a checkpoint made if that makes it due; only a fault prevents either |
| `Session.Session.WriteBlockWithOverflowRollover` | src/recording/disk.rs:1093-1136 | the parts become what the specification adds for the block; files and summary follow; a failure has its reason in the backend or a full directory and leaves nothing done, the rollover alone or the block without its checkpoint, every earlier part whole and never less of the last one synced than before |
| `SessionResults.ImageIsExact` | src/recording/disk.rs:367-374 | the bytes of a part, finished or saved up to any sync, are a header and that much of its audio, the header declaring exactly that unless the RIFF size is 0x74636166, and always for whole samples behind a word-aligned template |
| `SessionResults.FinishedPartIsExact` | src/recording/disk.rs:991-1035 | after a clean exit each stereo part's file is its header then its audio byte for byte, the header exact (always so for word-aligned templates), the summary's bytes and frames equal, the path its own and named for its part number |
| `SessionResults.CrashImageIsExact` | src/recording/disk.rs:337-365 | the same after every call that failed, with at most one interval and one block past the last sync |
| `SessionResults.CrashLosesLessThanInterval` | src/recording/disk.rs:53-66 | between blocks a crash leaves nothing before the first sync, then a header that a reader takes for exactly the audio up to the last sync (always so for word-aligned templates), byte for byte, and less than one checkpoint interval lies past it |
| `SessionResults.SessionHoldsAllAudio` | src/recording/summary.rs:19-24 | the parts hold all audio of the events, block by block in order, except the blocks before the first format, and the summary's total is its size |
| `InlineLoop.Consume` | src/recording/disk.rs:910-935 | one payload of the single ring: a format opens a part, a block is written; a failure has a reason and leaves no less synced than before |
| `InlineLoop.DeliveredExactly` | src/recording/disk.rs:897-985 | what the ring delivers is every payload before the first stop token, all of them without one |
| `InlineLoop.DiskWriterLoopInline` | src/recording/disk.rs:897-985 | the single-ring loop writes exactly the specified parts for what the ring delivers before its stop token or its end, all finalized; it fails only for a refused format, no name left or a fault, and leaves the parts of some first events and what it left of the next, with nothing synced undone |
| `Transport.Transport.constructor` | src/recording/pool.rs:192-242 | the seeding loops give every index once and N distinct slots, the initial state of the step system |
| `Transport.Transport.TryAcquire` | src/recording/pool.rs:298-311 | takes the oldest free index; none is an overrun; the index names a slot |
| `Transport.Transport.Fill` | src/recording/transport.rs:249-250 | fills the acquired slot in place, every other slot keeps its block |
| `Transport.Transport.Publish` | src/recording/pool.rs:382-420 | confirms the filled block, or on a full ring counts the slot as leaked |
| `Transport.Transport.TryPushAudio` | src/recording/transport.rs:241-252 | an accepted block is the last confirmed event; a refused one confirms nothing |
| `Transport.Transport.TryPushBarrier` | src/recording/pool.rs:336-343 | queues the barrier exactly if the work ring has room |
| `Transport.Transport.IssueMetadata` | src/recording/transport.rs:211-218 | queues one control message with the next wrapping number if the control ring has room |
| `Transport.Transport.ConfirmMetadata` | src/recording/transport.rs:220-225 | the format is confirmed exactly when its barrier is queued, otherwise it is pending under its number |
| `Transport.Transport.TryPushMetadata` | src/recording/transport.rs:181-226 | confirms the format exactly when it returns true; a pending format gets no second control message |
| `Transport.Transport.TryPushStreamStop` | src/recording/transport.rs:268-280 | queues the token exactly if the control ring has room; afterwards the sender is stopped |
| `Transport.Transport.Drop` | src/recording/guard.rs:284-292 | abandons both rings and changes nothing else |
| `Transport.Transport.SendAudio` | src/standalone/pw_host/rt_callback/process.rs:510-571 | a quantum longer than a block is refused outright, nothing is pushed before the format is confirmed, every other quantum is offered whole once, and every refused one is counted with its frames |
| `Transport.Transport.SendMetadata` | src/standalone/pw_host/rt_callback/process.rs:477-491 | the callback's confirmation flag follows the push |
| `Transport.Transport.TryPop` | src/recording/pool.rs:455-476 | takes the oldest descriptor; an audio descriptor names a slot |
| `Transport.Transport.Release` | src/recording/pool.rs:547-560 | returns the slot to the free ring; a barrier holds none |
| `Transport.Transport.Settle` | src/recording/pool.rs:563-570 | a written block counts as written; a failed one leaks its slot and ends the worker |
| `Transport.Transport.TakeMatch` | src/recording/disk.rs:719-724 | the matching metadata leaves the ring and counts as written, or the worker fails and the barrier counts as a leak |
| `Transport.Transport.DropSuperseded` | src/recording/disk.rs:726-730 | an older metadata leaves the ring, nothing else changes |
| `Transport.Transport.Skip` | src/recording/disk.rs:731-744 | a barrier without its metadata at the head is passed over |
| `Transport.Transport.PollControl` | src/recording/disk.rs:794-850 | on an empty work ring the stop token, or an abandoned metadata, leaves the control ring |
| `Transport.Transport.Exit` | src/recording/disk.rs:827-852 | the control ring is emptied and the worker ends with its last result |
| `DiskWorker.MakeCall` | src/recording/transport.rs:181-280 | each sender call is exactly its steps in the step system, and none after the stop token but the drop; its quantum is offered whole, or counted as too long |
| `DiskWorker.SenderTurn` | src/recording/guard.rs:276-299 | the scheduled calls are made whole and in order, the drop when there are none left, and heard until the stream ends |
| `DiskWorker.ScheduleIsHeard` | src/recording/guard.rs:276-299 | a stream that ended under a schedule of recording calls heard every one of them: all their quanta, in order, were offered or counted as too long |
| `DiskWorker.OpenPart` | src/recording/disk.rs:719-724 | the session's half of applying a format, told to the step system afterwards |
| `DiskWorker.WriteSlot` | src/recording/disk.rs:776-785 | the session's half of writing the block in its slot |
| `DiskWorker.ApplyMatch` | src/recording/disk.rs:719-724 | opening the barrier's part keeps the session equal to the specification of what was written |
| `DiskWorker.HandleControlBarrier` | src/recording/disk.rs:705-745 | the barrier loop: older metadata dropped, the match applied, anything else passed over; ends because the ring shrinks |
| `DiskWorker.WriteInPlace` | src/recording/disk.rs:776-785 | writes the slot's own block without moving it |
| `DiskWorker.HandleDescriptor` | src/recording/disk.rs:761-788 | a barrier or a block is handled and its slot given back |
| `DiskWorker.DrainAfterStop` | src/recording/disk.rs:798-845 | after the stop token everything queued is handled before the exit |
| `DiskWorker.DrainOne` | src/recording/disk.rs:798-845 | one turn of the drain: the next queued descriptor or the finalization |
| `DiskWorker.CheckControl` | src/recording/disk.rs:790-878 | terminal condition, stop token, abandoned metadata or another poll |
| `DiskWorker.NextLook` | src/recording/disk.rs:747-889 | the loop taken apart where another thread may run: each look is at least one worker step, with the sender gone one towards the exit, and keeps session and step system linked or ends the session |
| `DiskWorker.Terminate` | src/recording/disk.rs:833-852 | the live part is finalized on the drained rings |
| `DiskWorker.PollWork` | src/recording/disk.rs:759-788 | the work ring is polled before the control ring |
| `DiskWorker.PollRest` | src/recording/disk.rs:790-878 | stop token, abandoned metadata, terminal condition, or another poll |
| `DiskWorker.DiskWriterLoopPool` | src/recording/disk.rs:747-889 | for every schedule of sender calls and every answer of the disk the loop ends; the run is the schedule's batches in order, each followed by worker steps; on success every file is whole and the parts are the specified parts of what was written; it fails only for a refused format, no name left or a fault, and then the parts hold all that was written and whatever is left of the event in hand, every earlier part whole and the last one exactly as last synced, never less than at the start; existing files are kept |
| `PoolResults.PoolMatchesInline` | src/recording/disk.rs:661-889 | refinement: the pool worker leaves the very parts the single-ring worker writes for the confirmed events, if and only if no discard dropped a metadata whose barrier was queued |
| `PoolResults.OnlyHeadlessBlocksAreMissing` | src/recording/disk.rs:747-889 | what any session that ended well leaves, clean or not: some formats may be missing, and of the blocks only those written before any format; the files hold all confirmed blocks exactly if there are none |
| `PoolResults.FailureLosesTheQueue` | src/recording/disk.rs:747-889 | a session that failed tells what was written and at most the event in hand; that one's block and those still queued are all that is missing of the confirmed blocks |
| `PoolResults.FilesMatchInline` | src/recording/disk.rs:661-889 | for one encoder and the same confirmed events the pool worker and the single-ring worker leave the same parts exactly for clean discards, and then the same bytes in every file |
| `PoolResults.UnrefusedSessionIsLossless` | src/recording/guard.rs:46-55 | with no overrun counted every block offered was confirmed and written; all are in the files, in order, exactly if a format was written first, and always with clean discards |
| `PoolResults.RecordToEnd` | src/recording/disk.rs:642-672 | a fresh transport and session run to the end for every schedule: on success all files are whole, equal the single ring's if and only if the discards were clean, and every quantum of a schedule of recording calls was offered or counted as too long; existing files are kept |
| `PoolResults.ConfirmedStartsWithFormat` | src/recording/transport.rs:173-180 | no audio is confirmed before a format |
| `Rebuild.NoLostRequest` | src/standalone/pw_host/handlers.rs:420-435 | in every interleaving with guarded clears, whenever main is idle and the callback is not between bump and flag, an unhandled generation has its flag set |
| `Rebuild.QuiescentIsHandled` | src/standalone/pw_host/handlers.rs:320-435 | both idle and the flag clear: the last generation is handled, and a payload delivered for it is current if and only if its capture was not overtaken |
| `Rebuild.GenerationFirstIsNeverTorn` | src/standalone/pw_host/handlers.rs:308-330 | capturing the generation first: no payload of the current generation is stale or torn |
| `Rebuild.FailsOncePerGeneration` | src/standalone/pw_host/handlers.rs:264-279 | with the failure latch a generation fails at most once, however often the loop runs |
| `RebuildLimits.LostExactlyBySlips` | src/standalone/pw_host/handlers.rs:536-539 | no request is ever lost if and only if every unguarded clear (no impulse response, capacity gate) found its generation current or a flag about to be set |
| `RebuildLimits.LostStaysLost` | src/standalone/pw_host/handlers.rs:420-435 | a lost request is not noticed by any number of turns of the main loop |
| `RebuildLimits.SlimmableCanKeepOldChannel` | src/standalone/pw_host/handlers.rs:702-705 | a run with guarded clears that ends at rest with the flag clear and the old channel count delivered for the new generation |
| `RebuildLimits.NoInputClearLosesRequest` | src/standalone/pw_host/handlers.rs:536-539 | a run in which the clear for a missing impulse response loses a request |
| `RebuildLimits.CapacityGateLosesRequest` | src/standalone/pw_host/handlers.rs:923-931 | a run in which the capacity gate's check-then-clear loses a request |
| `RebuildHandler.Cells.StoreNext` | src/standalone/pw_host/rt_callback/rate_sync.rs:175-186 | one store of the callback is exactly one step: parameters, then generation, then flag |
| `RebuildHandler.Cells.CaptureGenerationFirst` | src/standalone/pw_host/handlers.rs:328-330 | generation, then parameters, the callback storing in between; left alone, the current request, unless its generation is latched as failed |
| `RebuildHandler.Cells.CaptureParametersFirst` | src/standalone/pw_host/handlers.rs:699-736 | the same with the parameters first, the slimmable handler's order; a request that can never be met is turned down before the latch and cleared through the guard |
| `RebuildHandler.Cells.RearmIfSuperseded` | src/standalone/pw_host/handlers.rs:430-435 | clear first, look afterwards; left alone, the flag ends up set exactly if the generation had moved |
| `RebuildHandler.Cells.Push` | src/standalone/pw_host/handlers.rs:356-379 | delivers what was captured, or on a full ring leaves the flag for the next turn |
| `RebuildHandler.Cells.BuildAndDeliver` | src/standalone/pw_host/handlers.rs:893-967 | each answer of the build: a payload carries what was captured; a failure is latched and goes through the guard, a rejection is not latched, a zero rate leaves the flag, a missing impulse response clears it at once |
| `RebuildHandler.Cells.RefuseTooLarge` | src/standalone/pw_host/handlers.rs:910-931 | a swap beyond the scratch capacity is latched, and its flag cleared after a look at the generation that may already be stale |
| `RebuildHandler.Cells.Handle` | src/standalone/pw_host/handlers.rs:320-435 | one handler call, interrupted anywhere: with a guarded answer no unhandled generation without its flag, and at rest nothing stale delivered for the current generation; left alone, every answer has its exact outcome on payload, latch and flag |
| `Signals.PackDecodes` | src/standalone/signals.rs:111-118 | the packed word is never idle and decodes to grace stage and clamped time |
| `Signals.AlwaysSound` | src/standalone/signals.rs:137-191 | every step of every delivery keeps: one winner, what a delivery saw is idle, the anchor or a forced exit |
| `Signals.ExactlyOneWins` | src/standalone/signals.rs:141-161 | over any interleaving at most one delivery wins, exactly when the word leaves idle, and it alone requests the shutdown |
| `Signals.FirstSignalWins` | src/standalone/signals.rs:141-161 | somebody does win: no delivery gets past the exchange before one has won, an exchange that does not fail spuriously on the idle word wins with its own time and its next store requests the shutdown, and once every delivery has returned the shutdown was requested |
| `Signals.HandlerEnds` | src/standalone/signals.rs:137-191 | the handler's loop ends after at most six steps of its own that do not fail spuriously, and nobody else sets it back |
| `Signals.DeliveryReadsClock` | src/standalone/signals.rs:137-139 | a delivery's time is what the clock had ticked when it came, clamped, whatever happens later |
| `Signals.ForcedStageStays` | src/standalone/signals.rs:166-187 | a delivery that exits by force has left the forced stage in the word |
| `Signals.AnchorIsWinnersTime` | src/standalone/signals.rs:142-147 | until a forced exit the word decodes to the winner's time |
| `Signals.AnchorNeverMoves` | src/standalone/signals.rs:142-147 | once won, winner, anchor and word never change until a forced exit |
| `Signals.ForcedExitIsLate` | src/standalone/signals.rs:165-187 | a forced exit is decided at least the live window after the winner's time |
| `Signals.SwallowedExactlyInside` | src/standalone/signals.rs:162-190 | a repeated delivery is swallowed if and only if it came inside the live window after the winner |
| `Signals.ArmingWorks` | src/standalone/signals.rs:88-101 | arming and disarming each take two stores and then have the recording's window and the default one in place; disarming what is not armed changes nothing |
| `Signals.WindowFollowsArming` | src/standalone/signals.rs:79-101 | outside those stores the window is the recording's exactly while armed and the default one otherwise |
| `Signals.ArmedMeansFiveSeconds` | src/standalone/signals.rs:88-101 | while a recording is armed that is at least five seconds, across the two stores of arming and disarming |
| `Guard.WorkerThread.Look` | src/recording/guard.rs:366-385 | the thread takes its next look at the rings of the shared transport, on the shared session: at least one worker step, with the sender gone one towards the exit |
| `Guard.WorkerThread.Run` | src/recording/guard.rs:366-385 | a wait gives the worker all of its looks unless it ends before; it moves nothing of the sender's and undoes nothing on disk; a thread that ended does nothing |
| `Guard.Pause` | src/recording/guard.rs:345-347 | one wait of the guard |
| `Guard.PushStreamStop` | src/recording/guard.rs:329-349 | tries at least once and at most once more than it waits, giving the worker its looks in between; if the token was not taken all waits were used and the control ring was full at the last try; offers and announces nothing, and undoes nothing on disk |
| `Guard.JoinRecordingIo` | src/recording/guard.rs:366-395 | timed out exactly if the thread did not end, otherwise panic, clean or failed as it ended; with the sender gone, waits of as many looks as the worker has steps left do not time out |
| `Guard.JoinInTime` | src/recording/guard.rs:366-395 | however full the rings are, four looks for each place in them and four more are enough |
| `Guard.ClassifyLoss` | src/recording/guard.rs:308-322 | success stays success exactly with no overrun, no lost frame and no leak; otherwise a clean join is a loss of as many blocks as the larger of the two counters says; other outcomes pass |
| `Guard.RecordingWorkerGuard.Teardown` | src/recording/guard.rs:276-299 | stop, drop, join: the sender is gone, leaks are read before the join, the token is tried unless the failure was seen, and the outcome is the join's |
| `Guard.RecordingWorkerGuard.Shutdown` | src/recording/guard.rs:241-246 | the outcome is how the thread ended or, if anything was counted, a loss; exit code 0 if and only if the worker returned without an error and no overrun was counted; then no slot had leaked, every part file is finished and durable, every block offered was confirmed and written; with clean discards the files hold exactly the blocks offered, in order, and without them exactly if a format was written first; waits that are long enough and without a panic end the thread |
| `Guard.RecordingWorkerGuard.Drop` | src/recording/guard.rs:250-269 | a guard that was shut down does nothing when dropped; otherwise the same teardown, which undoes nothing on disk |
| `Guard.RecordAndShutDown` | src/recording/guard.rs:241-246 | a recording from its first callback to its exit code: the run is the callbacks in order, each followed by the worker's looks of its wait; exactly their quanta were offered, or counted as too long; exit code 0 means finished files that hold those quanta, all of them, on the terms of the shutdown; and with no fault, no refused format, a directory that is not full, enough looks and no panic the code is 0 if and only if there was no overrun |
| `Guard.Record` | src/standalone/pw_host/rt_callback/process.rs:828-850 | every callback is made and heard, in order, and every wait gives the worker its looks |
| `Guard.NoReasonToFail` | src/recording/guard.rs:366-395 | without a fault, a refused format or a full directory the worker returns no error |
| `Guard.WorkerLeaksMeanFailure` | src/recording/pool.rs:563-570 | the worker drops a slot only together with its error |
| `AbOpt.ExtractMetricsMap` | src/receipt/ab_opt.rs:50-78 | succeeds exactly when every event is usable and no two share topology and run, and then tabulates them; otherwise the error is the first reason of the first event that is not |
| `AbOpt.TableHoldsAll` | src/receipt/ab_opt.rs:72-77 | the table holds every event under its own key and nothing else |
| `AbOpt.TableIsSane` | src/receipt/ab_opt.rs:32-48 | every entry has a positive p99 no greater than its maximum, over some samples, under a named topology and a numbered run |
| `AbOpt.UsableExactly` | src/receipt/ab_opt.rs:32-66 | an event is usable exactly if all of its fields are there and these hold |
| `AbOpt.CoversTopology` | src/receipt/ab_opt.rs:90-98 | finds a gap exactly when a run is missing |
| `AbOpt.RequireFullCoverage` | src/receipt/ab_opt.rs:80-107 | the key checks and the size check admit exactly topologies times runs, from three runs on, and tell too few runs, a gap and an extra key apart |
| `AbOpt.SortSorts` | src/receipt/ab_opt.rs:146 | sorting orders the values and keeps how many lie under any bound |
| `AbOpt.RankCounts` | src/receipt/ab_opt.rs:146-147 | the k-th value satisfies a bound exactly when more than k values do |
| `AbOpt.MedianSplits` | src/receipt/ab_opt.rs:146-147 | the middle element is the one value with at most half of the values, rounded down, below it and more than that at most it |
| `AbOpt.MedianHalves` | src/receipt/ab_opt.rs:137-148 | at least half of the values are at most the median and at least half are no less |
| `AbOpt.MedianTopologyNum` | src/receipt/ab_opt.rs:137-148 | the median of the topology's present values in event order, none if there is none |
| `AbOpt.EventsCountAsRuns` | src/receipt/ab_opt.rs:137-148 | whatever the order of events, their values count as the table's numbered runs do |
| `AbOpt.RanksDominate` | src/receipt/ab_opt.rs:137-148 | if every numbered run is at most 0.99 of its old one, so is every order statistic |
| `AbOpt.RanksFallShort` | src/receipt/ab_opt.rs:137-148 | the converse: if every numbered run falls short of the margin on its old one, so does every order statistic |
| `AbOpt.MedianPositive` | src/receipt/ab_opt.rs:32-48 | the medians of usable receipts are positive, so the percentages are defined |
| `AbOpt.PromotedExactly` | src/receipt/ab_opt.rs:573-577 | promotion is a one percent margin up to the tolerance, stated without the division |
| `AbOpt.ImprovementPromotes` | src/receipt/ab_opt.rs:545-577 | a uniform one percent gain carries over to the median and promotes the topology |
| `AbOpt.EvaluateTopology` | src/receipt/ab_opt.rs:544-577 | decides one topology's promotion from the two medians |
| `AbOpt.EvaluateAll` | src/receipt/ab_opt.rs:664-665 | promotes exactly if every topology is promoted |
| `AbOpt.EvaluateCeremony` | src/receipt/ab_opt.rs:496-796 | a verdict exists exactly for admissible receipts, otherwise the error is the first one there is; it is unoptimized if and only if some topology's medians miss the margin, and both are promoted if and only if all meet it, BOLT receipts exist and all of theirs meet it against PGO |
| `AbOpt.VerdictIsMargins` | src/receipt/ab_opt.rs:664-771 | the specified verdict in terms of the medians that counting singles out |
| `AbOpt.UniformShortfallIsUnoptimized` | src/receipt/ab_opt.rs:664-771 | receipts with one topology whose every PGO run falls short of the margin are judged unoptimized |
| `AbOpt.UniformGainIsPromoted` | src/receipt/ab_opt.rs:664-793 | receipts whose every PGO run gains one percent are never judged unoptimized, and with BOLT gaining on PGO both are promoted |

## Left out

- Pipeline: steps are sequentially consistent; memory orderings and raw references are not modelled, slot exclusivity is proved instead.
- Pipeline: the block in a slot is a value of at most 16384 samples, an f32 sample an opaque 32-bit word; a sample rate is a natural number and formats are compared as values, so a NaN rate, unequal to itself, is not modelled.
- Pipeline: what the callback skips once the worker has failed (`recording_failed`) and its data-available hint are not modelled.
- Transport: a sender call runs without interruption by the worker; the interleavings inside a call are the step system's.
- DiskWorker: the sender's calls happen between the worker's polls of the two rings, not inside the handling of one descriptor; the step system has those too.
- DiskWorker: idle sleeps, the free-space check and status text are left out, and so is the `io_uring` runtime.
- WavHeader: the encoder library is a parameter that returns a template (format chunk first, at most one four-byte fact chunk, empty data chunk last, the letters "fact" nowhere else) or refuses the format; it is taken to return the same template for the same format.
- WavHeader.HeaderIsExact: for 32-bit formats; other depths get no frame count.
- WavWriter: the checkpoint interval is a natural number per format, not the floating-point product of the source.
- Session: what is durable changes only when a sync succeeds; a crash inside a sync is not modelled.
- SessionResults.FinishedPartIsExact: for two-channel formats, because the writer always interleaves two planes and counts frames so.
- Session: the clock is free to give any timestamp of the two forms, with years of four digits; part numbers and offsets are unbounded, directories one level of names.
- Rebuild: the callback's cancellation of a rebuild on return to the active rate (`rate_sync.rs:111-138`) and its own failure latches are not modelled; what the builds compute is not part of this model, a bypass payload counts as delivered.
- Signals: the handler's loop is its steps, since deliveries interrupt one another at any of them; installation of handlers, the message on standard error and the exit system call are left out.
- Guard: a wait is some turns of the worker's loop chosen freely, not a duration; the guard acts, and the thread may panic, between two of the worker's looks at its rings, not inside the handling of one descriptor; what the failure flag showed is a free parameter. The teardown's disarming of the grace window is an action of Signals.
- AbOpt: reals instead of floating point, so the rounding of medians and percentages is not modelled; only the p99 median decides and only it is evaluated.
- AbOpt: the ledger, gain tables, BOLT tie evidence, provenance and the receipt document are left out: long lists of independent fields.
- Everything else: command line, alerts, banner, help, PipeWire streams, latency publication, benchmarks, releases. Not part of this model because it would only add single-branch members.
