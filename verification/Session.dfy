/**
 The disk worker's session state: the live writer, the part counter, the capture
 summary and the files (src/recording/disk.rs:895-1136, src/recording/summary.rs).
 */
module Session {
  import opened Wrappers
  import opened Buffer
  import opened Blocks
  import opened Io
  import opened WavHeader
  import opened WavWriter
  import opened Parts
  import opened Naming

  datatype CaptureSegment = CaptureSegment(path: string, dataBytes: nat, frames: nat, sampleRate: nat)

  class CaptureSummary {
    var segments: seq<CaptureSegment>

    constructor ()
      ensures segments == []
    {
      segments := [];
    }

    method PushSegment(segment: CaptureSegment)
      modifies this
      ensures segments == old(segments) + [segment]
    {
      segments := segments + [segment];
    }

    // Counts a block on the newest segment, if there is one.
    method CountBlock(frames: nat, bytes: nat)
      modifies this
      ensures old(segments) == [] ==> segments == []
      ensures old(segments) != [] ==>
                segments == Init(old(segments)) +
                  [Last(old(segments)).(dataBytes := Last(old(segments)).dataBytes + bytes,
                                        frames := Last(old(segments)).frames + frames)]
    {
      if segments != [] {
        var last := Last(segments);
        segments := Init(segments) + [last.(frames := last.frames + frames, dataBytes := last.dataBytes + bytes)];
      }
    }

    // The sum over the segments.
    method TotalBytes() returns (total: nat)
      ensures total == SumBytes(segments)
    {
      total := 0;
      for i := 0 to |segments|
        invariant total == SumBytes(segments[..i])
      {
        assert Init(segments[..i + 1]) == segments[..i];
        total := total + segments[i].dataBytes;
      }
      assert segments[..|segments|] == segments;
    }
  }

  function SumBytes(segments: seq<CaptureSegment>): nat {
    if segments == [] then 0 else SumBytes(Init(segments)) + Last(segments).dataBytes
  }

  // The bytes of a finished part: its header, then its audio.
  ghost predicate IsImage(image: seq<byte>, hound: Encoder, part: Part, audio: nat) {
    && hound(part.meta).Some? && audio <= U32_MAX && audio <= |AudioBytes(part.blocks)|
    && var h := Header(hound(part.meta).value, part.meta, audio);
    && h.Ok? && image == h.value + AudioBytes(part.blocks)[..audio]
  }

  // What a crash leaves of a part: nothing before its first sync, then exactly the
  // stereo frames counted at the last one under the header built for them.
  ghost predicate Saved(durable: seq<byte>, hound: Encoder, part: Part, kept: Option<nat>) {
    if kept.None? then durable == [] else kept.value % 8 == 0 && IsImage(durable, hound, part, kept.value)
  }

  function Amount(kept: Option<nat>): nat {
    if kept.Some? then kept.value else 0
  }

  // What a session has on disk: the directory, its own part files in order, and how
  // much of the last one is synced.
  datatype Disk = Disk(entries: map<string, File>, files: seq<File>, kept: Option<nat>)

  // Every entry is still there, with the same file; the part files are still there;
  // and as long as no newer part was opened, no less of the last one is synced.
  predicate NothingUndone(before: Disk, after: Disk) {
    && Preserved(before.entries, after.entries) && before.files <= after.files
    && (before.files == after.files && before.kept.Some? ==>
          after.kept.Some? && before.kept.value <= after.kept.value)
  }

  lemma UndoneTwice(a: Disk, b: Disk, c: Disk)
    requires NothingUndone(a, b) && NothingUndone(b, c)
    ensures NothingUndone(a, c)
  {
    hide Preserved;
    PreservedTwice(a.entries, b.entries, c.entries);
  }

  lemma PreservedTwice(a: map<string, File>, b: map<string, File>, c: map<string, File>)
    requires Preserved(a, b) && Preserved(b, c)
    ensures Preserved(a, c)
  {
  }

  lemma Untouched(disk: Disk)
    ensures NothingUndone(disk, disk)
  {
  }

  // The file holds the whole part, durably, under an exact header.
  ghost predicate FinishedFile(file: File, hound: Encoder, part: Part)
    reads file
  {
    file.data == file.durable && IsImage(file.durable, hound, part, |AudioBytes(part.blocks)|)
  }

  // The summary names the files of the parts, in order, the k-th by its part number,
  // and counts their audio.
  ghost predicate Listed(entries: map<string, File>, segments: seq<CaptureSegment>,
                         files: seq<File>, parts: seq<Part>)
  {
    && |parts| == |files| == |segments|
    && forall k :: 0 <= k < |parts| ==>
         && segments[k] == SegmentOf(segments[k].path, parts[k])
         && segments[k].path in entries && entries[segments[k].path] == files[k]
         && NamedFor(segments[k].path, k + 1)
  }

  ghost function SegmentOf(path: string, part: Part): CaptureSegment {
    var bytes := |AudioBytes(part.blocks)|;
    CaptureSegment(path, bytes, bytes / 8, part.meta.sampleRate)
  }

  // Every one of these files is finished.
  ghost predicate Whole(files: seq<File>, hound: Encoder, parts: seq<Part>)
    reads files
  {
    |files| == |parts| && forall k :: 0 <= k < |parts| ==> FinishedFile(files[k], hound, parts[k])
  }

  class Session {
    const hound: Encoder
    const interval: AudioMetadata -> nat
    const dir: Directory
    const summary: CaptureSummary
    var writer: WavWriter?
    var partCounter: nat
    // The part files in creation order, and what they are to hold.
    var files: seq<File>
    ghost var parts: seq<Part>
    // The audio bytes of the last part its durable image declares, once there is one.
    ghost var kept: Option<nat>
    // The faults of the backend before the session.
    ghost const baseline: nat

    ghost function Footprint(): set<object>
      reads this
    {
      {this, dir, dir.device, summary} + if writer == null then {} else {writer, writer.file}
    }

    ghost function OnDisk(): Disk
      reads this, dir
    {
      Disk(dir.entries, files, kept)
    }

    // The last part is open: its writer has all its audio, and at most one block
    // beyond the checkpoint interval.
    ghost predicate Live()
      requires parts != [] && files != []
      reads this, writer, files
    {
      && writer != null && writer.file == Last(files) && writer.file !in Init(files) && writer.Valid()
      && writer.file.device == dir.device
      && writer.metadata == Last(parts).meta && hound(writer.metadata) == Some(writer.template)
      && writer.checkpointIntervalBytes == interval(writer.metadata)
      && writer.Payload() == AudioBytes(Last(parts).blocks) && kept == writer.synced
      && (interval(writer.metadata) > 0 ==>
            writer.bytesSinceCheckpoint < interval(writer.metadata) + 4 * MAX_BLOCK_SIZE)
    }

    // The bookkeeping that holds at all times, an open part or not, until the backend
    // first fails.
    ghost predicate Consistent()
      reads this, dir, dir.device, summary, files
    {
      && Regular(hound) && dir.device.faults == baseline && partCounter == |parts| == |files|
      && Listed(dir.entries, summary.segments, files, parts)
      && (parts != [] ==> Whole(Init(files), hound, Init(parts)))
    }

    // Between two payloads: a part is live if any was opened, and no checkpoint
    // is due on it.
    ghost predicate Valid()
      reads this, dir, dir.device, summary, files, writer
    {
      && Consistent()
      && if parts == [] then writer == null else Live() && !writer.CheckpointDue()
    }

    constructor (hound: Encoder, interval: AudioMetadata -> nat, dir: Directory)
      requires Regular(hound)
      ensures Valid() && parts == [] && writer == null && fresh(summary) && files == [] && kept.None?
      ensures this.hound == hound && this.interval == interval && this.dir == dir
      ensures baseline == dir.device.faults
    {
      this.hound, this.interval, this.dir, baseline := hound, interval, dir, dir.device.faults;
      summary := new CaptureSummary();
      writer, partCounter, files, parts, kept := null, 0, [], [], None;
    }

    // Why an operation may fail: the encoder refuses the format, every name of the next
    // part is taken, or else the backend failed.
    ghost predicate Justified(e: IoError, refused: bool)
      reads this, dir, dir.device
    {
      match e
      case Malformed => refused
      case Exhausted => NoNameLeft(dir.entries.Keys, |parts| + 1)
      case _ => dir.device.faults > baseline
    }

    // What a failure leaves: every earlier part is finished, of the last one exactly
    // what was synced, and at most one interval and one block lies past that.
    ghost predicate Salvage()
      reads this, files
    {
      && |parts| == |files|
      && (parts != [] ==>
            && Whole(Init(files), hound, Init(parts)) && Saved(Last(files).durable, hound, Last(parts), kept)
            && (interval(Last(parts).meta) > 0 ==>
                  |AudioBytes(Last(parts).blocks)|
                  < Amount(kept) + interval(Last(parts).meta) + 4 * MAX_BLOCK_SIZE))
    }

    // While a part is open, a whole interval does exactly when a checkpoint is due.
    lemma LiveSalvage()
      requires Consistent() && parts != [] && Live()
      ensures Salvage()
      ensures interval(Last(parts).meta) > 0 ==>
                (writer.CheckpointDue() <==>
                 |AudioBytes(Last(parts).blocks)| >= Amount(kept) + interval(Last(parts).meta))
    {
      hide Template, AudioBytes, Header, WavWriter.HeaderOf, Saved;
      RecoverableSalvage(writer, hound, Last(parts));
    }

    // Finalizes and drops the live writer, if there is one. A failure leaves what
    // was synced before.
    method CloseWriter() returns (r: Result<(), IoError>)
      requires Valid()
      modifies Footprint()
      ensures unchanged(`files) && unchanged(`parts) && unchanged(`partCounter) && unchanged(dir) && unchanged(summary)
      ensures writer == null && Salvage() && NothingUndone(old(OnDisk()), OnDisk())
      ensures r.Ok? ==> Consistent() && Whole(files, hound, parts)
      ensures r.Err? ==> kept == old(kept) && IsFault(r.error) && dir.device.faults > baseline
    {
      hide Template, AudioBytes, Header, WavWriter.HeaderOf, WavWriter.Recoverable, FinishedFile, Saved, Whole,
           Listed;
      if writer == null {
        WholeNone(hound);
        return Ok(());
      }
      var existing := writer;
      LiveSalvage();
      writer := null;
      r := existing.Finalize();
      if r.Ok? {
        kept := existing.synced;
        ClosesWhole(existing, hound, files, parts);
      }
    }

    // A new exclusive file with its first header, under the name of the part with the
    // least free collision suffix.
    method Create(part: nat, meta: AudioMetadata)
      returns (r: Result<WavWriter, IoError>, path: string, ghost timestamp: string, ghost suffix: u32)
      requires Regular(hound)
      modifies dir, dir.device
      ensures r == Err(Malformed) ==> Refused(hound(meta), meta)
      ensures r == Err(Exhausted) ==> NoNameLeft(dir.entries.Keys, part)
      ensures Fails(r.Err? && r.error != Malformed && r.error != Exhausted, old(dir.device.faults), dir.device.faults)
      ensures Preserved(old(dir.entries), dir.entries)
      ensures r.Ok? ==>
                && fresh(r.value) && fresh(r.value.file) && r.value.Valid() && !r.value.CheckpointDue()
                && r.value.metadata == meta && hound(meta) == Some(r.value.template)
                && r.value.checkpointIntervalBytes == interval(meta) && r.value.Payload() == []
                && r.value.synced.None? && r.value.file.device == dir.device && !Refused(hound(meta), meta)
                && dir.entries == old(dir.entries)[path := r.value.file] && path !in old(dir.entries)
                && IsTimestamp(timestamp) && path == CaptureFilename(timestamp, part, suffix)
                && Taken(old(dir.entries).Keys, timestamp, part, suffix) && NamedFor(path, part)
    {
      hide Template, Header, WavWriter.HeaderOf, WavWriter.Recoverable, CaptureFilename, Taken, NamedFor, IsTimestamp;
      var clock: string := *;
      var now := ReadClock(clock);
      timestamp := now;
      var file, name, free := CreateNewCapture(dir, part, now);
      path, suffix := name, free;
      if file.Err? {
        r := Err(file.error);
        return;
      }
      IsNamedFor(timestamp, part, suffix);
      r := WavWriter.Open(file.value, hound(meta), meta, interval(meta));
    }

    // Registers a writer that was just created.
    method Adopt(newWriter: WavWriter, path: string, meta: AudioMetadata, ghost rolled: bool)
      requires Regular(hound) && partCounter == |parts| + 1
      requires path in dir.entries && dir.entries[path] == newWriter.file && newWriter.file !in files
      requires NamedFor(path, partCounter)
      requires Listed(dir.entries, summary.segments, files, parts) && Whole(files, hound, parts)
      requires newWriter.Valid() && newWriter.metadata == meta && hound(meta) == Some(newWriter.template)
      requires newWriter.checkpointIntervalBytes == interval(meta) && newWriter.Payload() == []
      requires !newWriter.CheckpointDue() && newWriter.synced.None?
      requires newWriter.file.device == dir.device && dir.device.faults == baseline
      modifies this`files, this`parts, this`writer, this`kept, summary
      ensures Valid() && writer == newWriter && Salvage()
      ensures parts == old(parts) + [Part(meta, [], rolled)] && files == old(files) + [newWriter.file]
    {
      hide Template, AudioBytes, Whole, NamedFor;
      summary.PushSegment(CaptureSegment(path, 0, 0, meta.sampleRate));
      files := files + [newWriter.file];
      parts := parts + [Part(meta, [], rolled)];
      writer, kept := newWriter, None;
      NoAudio();
      LiveSalvage();
    }

    // The next part number, and the file for it. What is on disk already stays.
    method NextFile(meta: AudioMetadata) returns (r: Result<WavWriter, IoError>, path: string)
      requires Consistent() && Salvage()
      modifies this`partCounter, dir, dir.device
      ensures Salvage() && Preserved(old(dir.entries), dir.entries) && partCounter == |parts| + 1
      ensures r.Ok? ==>
                && fresh(r.value) && fresh(r.value.file) && r.value.Valid() && !r.value.CheckpointDue()
                && r.value.metadata == meta && hound(meta) == Some(r.value.template)
                && r.value.checkpointIntervalBytes == interval(meta) && r.value.Payload() == []
                && r.value.synced.None? && r.value.file.device == dir.device && !Refused(hound(meta), meta)
                && path in dir.entries && dir.entries[path] == r.value.file && NamedFor(path, partCounter)
                && dir.device.faults == baseline
      ensures r.Err? ==> Justified(r.error, Refused(hound(meta), meta))
    {
      hide Template, AudioBytes, Whole, Saved, Listed, WavWriter.Valid, NamedFor, Taken, CaptureFilename, IsTimestamp,
           Refused, NoNameLeft, WavWriter.CheckpointDue, Preserved;
      partCounter := partCounter + 1;
      var created, name, _, _ := Create(partCounter, meta);
      r, path := created, name;
    }

    // Opens the next part, no part being open.
    method OpenNext(meta: AudioMetadata, ghost rolled: bool) returns (r: Result<(), IoError>)
      requires Consistent() && Whole(files, hound, parts) && Salvage() && writer == null
      modifies Footprint()
      ensures fresh(Footprint() - old(Footprint()))
      ensures NothingUndone(old(OnDisk()), OnDisk()) && Salvage()
      ensures r.Ok? ==> Valid() && parts == old(parts) + [Part(meta, [], rolled)] && old(files) <= files
      ensures r.Err? ==> parts == old(parts) && files == old(files) && Justified(r.error, Refused(hound(meta), meta))
      ensures r.Ok? ==> !Refused(hound(meta), meta)
    {
      hide Template, AudioBytes, Whole, Listed, WavWriter.Valid, NamedFor, Refused, Live, Valid, Salvage, Justified,
           WavWriter.CheckpointDue, Preserved;
      var created, path := NextFile(meta);
      if created.Err? { return Err(created.error); }
      ListedPreserved(old(dir.entries), dir.entries, summary.segments, files, parts);
      Adopt(created.value, path, meta, rolled);
      return Ok(());
    }

    // Finalizes the live part and opens the next one. No file already in the
    // directory is touched, except the live part by its own finalization; a failure
    // leaves at least what was synced of it.
    method OpenNewPart(meta: AudioMetadata, ghost rolled: bool) returns (r: Result<(), IoError>)
      requires Valid()
      modifies Footprint()
      ensures fresh(Footprint() - old(Footprint()))
      ensures NothingUndone(old(OnDisk()), OnDisk()) && Salvage()
      ensures r.Ok? ==> Valid() && parts == old(parts) + [Part(meta, [], rolled)] && old(files) <= files
      ensures r.Err? ==> parts == old(parts) && files == old(files) && Justified(r.error, Refused(hound(meta), meta))
      ensures r.Ok? ==> !Refused(hound(meta), meta)
    {
      hide Consistent, Valid, Whole, Salvage, NothingUndone, Refused, NoNameLeft;
      r := CloseWriter();
      if r.Err? { return; }
      ghost var disk := OnDisk();
      r := OpenNext(meta, rolled);
      UndoneTwice(old(OnDisk()), disk, OnDisk());
    }

    // The format of a live part was accepted by the encoder and would be again.
    lemma LiveIsAccepted()
      requires Valid() && parts != []
      ensures !Refused(hound(writer.metadata), writer.metadata)
    {
      hide Template, Header, AudioBytes, Listed, Whole, WavWriter.Recoverable;
      HeaderFits(writer.template, writer.metadata, 0);
    }

    // The writer sees the overflow exactly when the part is full.
    lemma OverflowIsFull(block: Block)
      requires Valid() && parts != []
      ensures writer.headerLen - 8 <= U32_MAX && 8 <= writer.headerLen
      ensures writer.WouldOverflow(|block|) <==> Full(hound, Last(parts), block)
      ensures Last(parts).blocks == [] ==> !writer.WouldOverflow(|block|)
    {
      hide Template, AudioBytes, Listed, Whole, WavWriter.Recoverable;
      TemplateHead(writer.template);
      NoAudio();
    }

    // Counts a block that was just written.
    method Count(frames: nat, bytes: nat, ghost block: Block)
      requires parts != [] && bytes == 4 * |block| && frames == |block| / 2
      requires Listed(dir.entries, summary.segments, files, parts)
      modifies this`parts, summary
      ensures parts == GrowLast(old(parts), block) && Init(parts) == Init(old(parts))
      ensures Listed(dir.entries, summary.segments, files, parts)
      ensures AudioBytes(Last(parts).blocks) == AudioBytes(Last(old(parts)).blocks) + Interleaved(block)
    {
      hide AudioBytes, Interleaved, FinishedFile;
      LengthGrows(Last(parts).blocks, block);
      AudioBytesAppend(Last(parts).blocks, block);
      summary.CountBlock(frames, bytes);
      parts := GrowLast(parts, block);
    }

    // Writes one block to the live part and counts it. What is synced stays.
    method Append(block: AlignedBlock) returns (r: Result<(), IoError>)
      requires parts != [] && block.Valid() && Valid() && !Full(hound, Last(parts), block.AsSlice())
      modifies Footprint()
      ensures Footprint() == old(Footprint()) && OnDisk() == old(OnDisk())
      ensures Salvage()
      ensures r.Ok? ==> parts == GrowLast(old(parts), old(block.AsSlice())) && parts != [] && Consistent() && Live()
      ensures r.Err? ==> parts == old(parts) && IsFault(r.error) && dir.device.faults > baseline
    {
      hide Template, AudioBytes, Interleaved, Whole, Saved, Full, Listed, WavWriter.HeaderOf,
           WavWriter.Recoverable;
      OverflowIsFull(block.AsSlice());
      LiveSalvage();
      ghost var samples := block.AsSlice();
      r := writer.WriteBlock(block);
      if r.Err? { return; }
      Count(block.validLen / 2, block.validLen * 4, samples);
      LiveSalvage();
    }

    // Rewrites the header if a checkpoint is due: then everything written is synced.
    // A failure leaves what was synced before.
    method CheckpointIfDue() returns (r: Result<(), IoError>)
      requires parts != [] && Consistent() && Live()
      modifies Footprint()
      ensures Footprint() == old(Footprint()) && parts == old(parts)
      ensures NothingUndone(old(OnDisk()), OnDisk()) && files == old(files) && Salvage()
      ensures r.Ok? ==> Valid()
      ensures r.Ok? && old(writer.CheckpointDue()) ==> kept == Some(|AudioBytes(Last(parts).blocks)|)
      ensures r.Err? || !old(writer.CheckpointDue()) ==> kept == old(kept)
      ensures r.Err? ==> IsFault(r.error) && dir.device.faults > baseline
    {
      hide Template, AudioBytes, Whole, Saved, Listed, WavWriter.HeaderOf, WavWriter.Recoverable;
      LiveSalvage();
      if !writer.CheckpointDue() { return Ok(()); }
      r := writer.Checkpoint();
      if r.Err? { return; }
      kept := writer.synced;
      LiveSalvage();
    }

    lemma WriterIsLive()
      requires Valid()
      ensures writer == null <==> parts == []
      ensures parts == [] ==> Salvage()
    {
      hide Template, AudioBytes, Listed, Whole, WavWriter.Valid;
    }

    // Rolls over if the live part has no room for the block.
    method MakeRoom(block: AlignedBlock) returns (r: Result<(), IoError>)
      requires Valid() && parts != [] && block.Valid()
      modifies Footprint()
      ensures fresh(Footprint() - old(Footprint())) && NothingUndone(old(OnDisk()), OnDisk())
      ensures r.Ok? ==>
                && Valid() && parts != [] && !Full(hound, Last(parts), old(block.AsSlice())) && old(files) <= files
                && parts == if Full(hound, Last(old(parts)), old(block.AsSlice()))
                            then old(parts) + [Part(Last(old(parts)).meta, [], true)] else old(parts)
      ensures r.Err? ==> Salvage() && parts == old(parts) && Justified(r.error, false)
    {
      hide Template, AudioBytes, Consistent, Salvage, Full, WavWriter.WouldOverflow, WavWriter.Valid;
      OverflowIsFull(block.AsSlice());
      if !writer.WouldOverflow(block.validLen) { return Ok(()); }
      LiveIsAccepted();
      r := OpenNewPart(writer.metadata, true);
      if r.Ok? { OverflowIsFull(block.AsSlice()); }
    }

    // Writes one block to the live part and checkpoints if that makes it due.
    method AppendAndCheckpoint(block: AlignedBlock) returns (r: Result<(), IoError>)
      requires parts != [] && block.Valid() && Valid() && !Full(hound, Last(parts), block.AsSlice())
      modifies Footprint()
      ensures Footprint() == old(Footprint()) && NothingUndone(old(OnDisk()), OnDisk()) && Salvage()
      ensures r.Ok? ==> Valid() && parts == GrowLast(old(parts), old(block.AsSlice()))
      ensures r.Err? ==> parts == old(parts) || parts == GrowLast(old(parts), old(block.AsSlice()))
      ensures r.Err? ==> IsFault(r.error) && dir.device.faults > baseline
    {
      hide Template, AudioBytes, Valid, Consistent, Live, Salvage, Full, GrowLast, NothingUndone;
      Untouched(OnDisk());
      r := Append(block);
      if r.Err? { return; }
      r := CheckpointIfDue();
    }

    // One block of the stream. Without a part it goes nowhere, as in the source. A
    // failure may leave the rollover alone, or the block without its checkpoint; it
    // never leaves less synced than before.
    method WriteBlockWithOverflowRollover(block: AlignedBlock) returns (r: Result<(), IoError>)
      requires Valid() && block.Valid()
      modifies Footprint()
      ensures fresh(Footprint() - old(Footprint()))
      ensures NothingUndone(old(OnDisk()), OnDisk()) && Salvage()
      ensures r.Ok? ==> Valid() && parts == AddBlock(hound, old(parts), old(block.AsSlice()))
      ensures r.Err? ==> Interrupted(hound, old(parts), Audio(old(block.AsSlice())), parts)
      ensures r.Err? ==> Justified(r.error, false)
    {
      hide Template, AudioBytes, Valid, Consistent, Live, Salvage, Full, WavWriter.WouldOverflow, NothingUndone, GrowLast;
      WriterIsLive();
      Untouched(OnDisk());
      if writer == null { return Ok(()); }
      ghost var samples, before, was := block.AsSlice(), parts, OnDisk();
      r := MakeRoom(block);
      if r.Err? { return; }
      ghost var roomy := OnDisk();
      r := AppendAndCheckpoint(block);
      RolledIsAdded(hound, before, samples);
      UndoneTwice(was, roomy, OnDisk());
    }
  }

  // A format the encoder refuses.
  predicate RefusedEvent(hound: Encoder, e: Event) {
    e.Format? && Refused(hound(e.meta), e.meta)
  }

  lemma RolledIsAdded(hound: Encoder, parts: seq<Part>, block: Block)
    requires parts != []
    ensures AddBlock(hound, parts, block)
         == if Full(hound, Last(parts), block) then GrowLast(parts + [Part(Last(parts).meta, [], true)], block)
            else GrowLast(parts, block)
  {
    hide Full;
    assert Init(parts + [Part(Last(parts).meta, [], true)]) == parts && [] + [block] == [block];
  }

  ghost function GrowLast(parts: seq<Part>, block: Block): (r: seq<Part>)
    ensures |r| == |parts|
  {
    if parts == [] then []
    else Init(parts) + [Last(parts).(blocks := Last(parts).blocks + [block])]
  }

  lemma NoAudio()
    ensures AudioBytes([]) == []
  {
  }

  // Every entry is still there, with the same file.
  predicate Preserved(before: map<string, File>, after: map<string, File>) {
    forall name <- before :: name in after && after[name] == before[name]
  }

  lemma WholeNone(hound: Encoder)
    ensures Whole([], hound, [])
  {
  }

  lemma ListedPreserved(before: map<string, File>, after: map<string, File>, segments: seq<CaptureSegment>,
                        files: seq<File>, parts: seq<Part>)
    requires Listed(before, segments, files, parts) && Preserved(before, after)
    ensures Listed(after, segments, files, parts)
  {
    hide AudioBytes;
  }

  lemma WholeAppend(files: seq<File>, file: File, hound: Encoder, parts: seq<Part>, part: Part)
    requires Whole(files, hound, parts) && FinishedFile(file, hound, part)
    ensures Whole(files + [file], hound, parts + [part])
  {
    hide FinishedFile;
  }

  lemma WholeIsSaved(file: File, hound: Encoder, part: Part)
    requires FinishedFile(file, hound, part)
    ensures Saved(file.durable, hound, part, Some(|AudioBytes(part.blocks)|))
  {
    hide AudioBytes, IsImage;
  }

  // A finalized part is whole.
  lemma FinalImage(writer: WavWriter, hound: Encoder, part: Part)
    requires writer.Sound() && writer.metadata == part.meta && hound(part.meta) == Some(writer.template)
    requires writer.Payload() == AudioBytes(part.blocks)
    requires writer.file.data == writer.file.durable == writer.HeaderOf(writer.dataBytesWritten) + writer.Payload()
    ensures FinishedFile(writer.file, hound, part)
  {
    hide Template, AudioBytes, Header;
    HeaderFits(writer.template, writer.metadata, writer.dataBytesWritten);
    assert writer.Payload()[..writer.dataBytesWritten] == writer.Payload();
  }

  // Finalizing the last part makes every part whole.
  lemma ClosesWhole(writer: WavWriter, hound: Encoder, files: seq<File>, parts: seq<Part>)
    requires parts != [] && |files| == |parts| && Whole(Init(files), hound, Init(parts))
    requires Last(files) == writer.file && writer.Sound() && writer.metadata == Last(parts).meta
    requires hound(writer.metadata) == Some(writer.template) && writer.Payload() == AudioBytes(Last(parts).blocks)
    requires writer.file.data == writer.file.durable == writer.HeaderOf(writer.dataBytesWritten) + writer.Payload()
    ensures Whole(files, hound, parts)
    ensures Saved(writer.file.durable, hound, Last(parts), Some(|AudioBytes(Last(parts).blocks)|))
    ensures writer.dataBytesWritten == |AudioBytes(Last(parts).blocks)|
  {
    hide Template, AudioBytes, Header, WavWriter.HeaderOf, FinishedFile, Saved, Whole;
    FinalImage(writer, hound, Last(parts));
    WholeIsSaved(writer.file, hound, Last(parts));
    WholeAppend(Init(files), writer.file, hound, Init(parts), Last(parts));
    assert files == Init(files) + [writer.file] && parts == Init(parts) + [Last(parts)];
  }

  // The durable bytes of a live part.
  lemma RecoverableSalvage(writer: WavWriter, hound: Encoder, part: Part)
    requires writer.Valid() && writer.metadata == part.meta && hound(part.meta) == Some(writer.template)
    requires writer.Payload() == AudioBytes(part.blocks)
    ensures Saved(writer.file.durable, hound, part, writer.synced)
    ensures |AudioBytes(part.blocks)| == Amount(writer.synced) + writer.bytesSinceCheckpoint
  {
    hide Template, AudioBytes, Header;
    if writer.synced.Some? {
      var n := writer.synced.value;
      HeaderFits(writer.template, writer.metadata, n);
      assert writer.Payload()[..n] == writer.file.data[writer.headerLen..writer.headerLen + n];
    }
  }
}
