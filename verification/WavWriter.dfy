/**
 The writer of one part (src/recording/disk.rs:191-375): a header, then the
 interleaved audio, with periodic header checkpoints.
 */
module WavWriter {
  import opened Wrappers
  import opened Buffer
  import opened Blocks
  import opened Io
  import opened WavHeader

  // ----- interleaving -----

  // The first `n` frames of two planes, sample by sample, as little-endian words.
  function InterleaveFrames(left: seq<Sample>, right: seq<Sample>, n: nat): (bytes: seq<byte>)
    requires n <= |left| && n <= |right|
    ensures |bytes| == 8 * n
  {
    if n == 0 then []
    else InterleaveFrames(left, right, n - 1) + Le32(left[n - 1]) + Le32(right[n - 1])
  }

  function Interleaved(block: Block): (bytes: seq<byte>)
    ensures |bytes| == 4 * |block|
  {
    var frames := |block| / 2;
    InterleaveFrames(block[..frames], block[frames..], frames)
  }

  // The audio of a part: its blocks one after the other.
  function AudioBytes(blocks: seq<Block>): (bytes: seq<byte>)
    ensures |bytes| % 8 == 0
  {
    if blocks == [] then []
    else
      var last := blocks[|blocks| - 1];
      AudioBytes(blocks[..|blocks| - 1]) + Interleaved(last)
  }

  // Reads the samples of one channel back: 0 is left, 1 is right.
  function ReadChannel(bytes: seq<byte>, channel: nat, n: nat): (plane: seq<Sample>)
    requires channel < 2 && 8 * n <= |bytes|
    ensures |plane| == n
  {
    if n == 0 then []
    else
      ReadChannel(bytes, channel, n - 1) + [U32Of(Window(bytes, 8 * (n - 1) + 4 * channel))]
  }

  lemma {:induction false} ReadPrefix(bytes: seq<byte>, more: seq<byte>, channel: nat, n: nat)
    requires channel < 2 && 8 * n <= |bytes|
    ensures ReadChannel(bytes + more, channel, n) == ReadChannel(bytes, channel, n)
  {
    if n > 0 {
      ReadPrefix(bytes, more, channel, n - 1);
      var at := 8 * (n - 1) + 4 * channel;
      assert (bytes + more)[at..at + 4] == bytes[at..at + 4];
    }
  }

  // The last sample of a channel is the word written for it.
  lemma ReadLast(earlier: seq<byte>, l: seq<byte>, r: seq<byte>, channel: nat, n: nat)
    requires channel < 2 && n > 0 && |earlier| == 8 * (n - 1) && |l| == |r| == 4
    ensures ReadChannel(earlier + l + r, channel, n)
         == ReadChannel(earlier, channel, n - 1) + [U32Of(if channel == 0 then l else r)]
  {
    hide U32Of;
    var bytes := earlier + l + r;
    assert bytes == earlier + (l + r);
    ReadPrefix(earlier, l + r, channel, n - 1);
    assert Window(bytes, 8 * (n - 1) + 4 * channel) == if channel == 0 then l else r;
  }

  // A player reads the two planes back frame by frame.
  lemma {:induction false} FramesRoundTrip(left: seq<Sample>, right: seq<Sample>, n: nat)
    requires n <= |left| && n <= |right|
    ensures var bytes := InterleaveFrames(left, right, n);
            ReadChannel(bytes, 0, n) == left[..n] && ReadChannel(bytes, 1, n) == right[..n]
  {
    hide Le32, U32Of;
    if n > 0 {
      var earlier, l, r := InterleaveFrames(left, right, n - 1), Le32(left[n - 1]), Le32(right[n - 1]);
      FramesRoundTrip(left, right, n - 1);
      hide ReadChannel;
      ReadLast(earlier, l, r, 0, n);
      ReadLast(earlier, l, r, 1, n);
      Le32RoundTrip(left[n - 1]);
      Le32RoundTrip(right[n - 1]);
    }
  }

  lemma InterleavingRoundTrips(block: Block)
    ensures var frames := |block| / 2;
            ReadChannel(Interleaved(block), 0, frames) + ReadChannel(Interleaved(block), 1, frames) == block
  {
    var frames := |block| / 2;
    hide ReadChannel, InterleaveFrames;
    FramesRoundTrip(block[..frames], block[frames..], frames);
  }

  lemma AudioBytesAppend(blocks: seq<Block>, block: Block)
    ensures AudioBytes(blocks + [block]) == AudioBytes(blocks) + Interleaved(block)
  {
    assert (blocks + [block])[..|blocks|] == blocks;
  }

  // ----- what a positioned write does to a part -----

  lemma OverwriteTail(disk: seq<byte>, bytes: seq<byte>)
    ensures Overwrite(disk, |disk|, bytes) == disk + bytes
  {
  }

  lemma OverwriteHead(disk: seq<byte>, bytes: seq<byte>, len: nat)
    requires |bytes| <= len <= |disk|
    ensures var after := Overwrite(disk, 0, bytes);
            && |after| == |disk| && after[len..] == disk[len..]
            && (|bytes| == len ==> after == bytes + disk[len..])
  {
  }

  // A write at the end that stored all but the last `missing` bytes.
  lemma AppendedPrefix(before: seq<byte>, buf: seq<byte>, missing: nat)
    requires missing <= |buf|
    ensures var after := Overwrite(before, |before|, buf[..|buf| - missing]);
            && before <= after <= before + buf
            && (missing == 0 ==> after == Overwrite(before, |before|, buf) == before + buf)
  {
    hide Overwrite;
    assert buf[..|buf|] == buf;
    OverwriteTail(before, buf[..|buf| - missing]);
  }

  // The truncating addition of the source.
  function AddTruncating(a: u32, b: nat): u32 {
    (a + b % 0x1_0000_0000) % 0x1_0000_0000
  }

  // While the sum fits 32 bits nothing is cut off; whole frames stay whole.
  lemma NoWrap(a: u32, b: nat)
    ensures a + b <= U32_MAX ==> AddTruncating(a, b) == a + b
    ensures a % 8 == 0 && b % 8 == 0 ==> (a + b) % 8 == 0
  {
  }

  // The encoder library cannot start a file of this format.
  predicate Refused(template: Option<seq<byte>>, metadata: AudioMetadata) {
    template.None? || Header(template.value, metadata, 0).Err?
  }

  class WavWriter {
    const file: File
    const metadata: AudioMetadata
    const template: seq<byte>
    const headerLen: nat
    const checkpointIntervalBytes: nat
    var dataBytesWritten: u32
    var currentOffset: nat
    var bytesSinceCheckpoint: nat
    var ioBuf: seq<byte>
    // The audio bytes the durable header declares, once there is one.
    ghost var synced: Option<nat>

    // The header that declares `n` bytes of audio.
    ghost function HeaderOf(n: u32): (h: seq<byte>)
      requires Sized() && headerLen - 8 + n <= U32_MAX
      ensures |h| == headerLen
    {
      hide Template, Header;
      HeaderFits(template, metadata, n);
      Header(template, metadata, n).value
    }

    ghost predicate Sized() {
      Template(template) && headerLen == |template| && (metadata.bitDepth == 32 ==> metadata.channels > 0)
    }

    ghost function Synced(): nat
      reads this
    {
      if synced.Some? then synced.value else 0
    }

    // The RIFF bound and the offsets: the file is the header and the audio counted so
    // far, in whole stereo frames.
    ghost predicate Sound()
      reads this, file
    {
      && Sized()
      && currentOffset == headerLen + dataBytesWritten == |file.data|
      && headerLen - 8 + dataBytesWritten <= U32_MAX
      && dataBytesWritten % 8 == 0 && Synced() % 8 == 0 && Synced() <= dataBytesWritten
      && Recoverable()
    }

    // Until it is finalized, the writer also counts exactly what is not yet durable.
    ghost predicate Valid()
      reads this, file
    {
      Sound() && dataBytesWritten == Synced() + bytesSinceCheckpoint
    }

    // What a crash leaves: nothing yet, or a header declaring exactly the audio
    // that follows it, which is a prefix of the audio written.
    ghost predicate Recoverable()
      reads this, file
      requires Sized()
    {
      Kept(file.durable, file.data, synced)
    }

    ghost predicate Kept(durable: seq<byte>, data: seq<byte>, n: Option<nat>)
      requires Sized()
    {
      if n.None? then durable == []
      else
        && headerLen - 8 + n.value <= U32_MAX && headerLen + n.value <= |data|
        && durable == HeaderOf(n.value) + data[headerLen..headerLen + n.value]
    }

    ghost function Payload(): seq<byte>
      reads this, file
      requires headerLen <= |file.data|
    {
      file.data[headerLen..]
    }

    // Writes the initial header to a file that was just created.
    constructor Unwritten(file: File, template: seq<byte>, metadata: AudioMetadata, interval: nat)
      requires Template(template) && (metadata.bitDepth == 32 ==> metadata.channels > 0)
      requires |file.data| == |template| && file.durable == []
      ensures Valid() && synced == None && dataBytesWritten == 0 && bytesSinceCheckpoint == 0
      ensures this.file == file && this.template == template && this.metadata == metadata
      ensures checkpointIntervalBytes == interval
    {
      this.file, this.template, this.metadata := file, template, metadata;
      headerLen, dataBytesWritten, currentOffset := |template|, 0, |template|;
      bytesSinceCheckpoint, checkpointIntervalBytes, ioBuf, synced := 0, interval, [], None;
    }

    // `template` is the encoder library's answer for `metadata`.
    static method Open(file: File, template: Option<seq<byte>>, metadata: AudioMetadata, interval: nat)
      returns (r: Result<WavWriter, IoError>)
      requires file.data == [] && file.durable == []
      requires template.Some? ==> Template(template.value)
      modifies file`data, file.device
      ensures r == Err(Malformed) <==> Refused(template, metadata)
      ensures Fails(r.Err? && r.error != Malformed, old(file.device.faults), file.device.faults)
      ensures r.Err? && r.error != Malformed ==> IsFault(r.error)
      ensures r.Ok? ==>
                && fresh(r.value) && r.value.Valid() && r.value.file == file && r.value.metadata == metadata
                && template == Some(r.value.template) && r.value.checkpointIntervalBytes == interval
                && file.data == r.value.HeaderOf(0) && r.value.synced == None
                && r.value.dataBytesWritten == 0 && r.value.bytesSinceCheckpoint == 0
      ensures r.Err? ==> file.durable == []
    {
      hide Template, Header;
      var header := BuildWavHeader(template, metadata, 0);
      if header.Err? { return Err(Malformed); }
      HeaderFits(template.value, metadata, 0);
      var res, _ := WriteAllAt(file, header.value, 0);
      if res.Err? { return Err(res.error); }
      OverwriteTail([], header.value);
      assert file.data == header.value;
      var writer := new WavWriter.Unwritten(file, template.value, metadata, interval);
      return Ok(writer);
    }

    // Whether `sampleCount` more samples have no header that could declare them.
    function WouldOverflow(sampleCount: nat): bool
      requires 8 <= headerLen && headerLen - 8 <= U32_MAX
      reads this
    {
      var bytesToAdd := sampleCount * 4;
      var maxDataPayload := U32_MAX - (headerLen - 8);
      dataBytesWritten + bytesToAdd > maxDataPayload
    }

    lemma OverflowMeansNoHeader(sampleCount: nat)
      requires Valid()
      ensures WouldOverflow(sampleCount) <==>
                dataBytesWritten + 4 * sampleCount > U32_MAX
                || Header(template, metadata, dataBytesWritten + 4 * sampleCount).Err?
    {
      hide Template, Header;
      TemplateHead(template);
      if dataBytesWritten + 4 * sampleCount <= U32_MAX {
        HeaderFits(template, metadata, dataBytesWritten + 4 * sampleCount);
      }
    }

    // Interleaves the block into the reused buffer.
    method Interleave(block: AlignedBlock)
      requires block.Valid()
      modifies this`ioBuf
      ensures ioBuf == Interleaved(block.AsSlice())
    {
      hide Le32;
      var frames := block.validLen / 2;
      var left, right := block.AsSlice()[..frames], block.AsSlice()[frames..];
      ioBuf := [];
      for i := 0 to frames
        invariant ioBuf == InterleaveFrames(left, right, i)
      {
        ioBuf := ioBuf + Le32(left[i]);
        ioBuf := ioBuf + Le32(right[i]);
      }
    }

    // Hands the filled buffer to the backend and takes what is left of it back.
    method Submit() returns (r: Result<(), IoError>)
      requires currentOffset == |file.data|
      modifies this`ioBuf, file`data, file.device
      ensures Fails(r.Err?, old(file.device.faults), file.device.faults) && (r.Err? ==> IsFault(r.error))
      ensures r.Ok? ==> file.data == old(file.data) + old(ioBuf)
      ensures r.Err? ==> old(file.data) <= file.data <= old(file.data) + old(ioBuf)
    {
      hide Overwrite;
      var buf := ioBuf;
      ioBuf := [];
      var res, returned := WriteAllAt(file, buf, currentOffset);
      ioBuf := returned;
      AppendedPrefix(old(file.data), buf, if res.Ok? || res.error == InvalidData then 0 else |returned|);
      r := res;
    }

    // Counts `bytesLen` bytes that were just appended to `before`. The 32-bit counter
    // never wraps.
    method Account(bytesLen: nat, ghost before: seq<byte>)
      requires Sized() && currentOffset == headerLen + dataBytesWritten == |before|
      requires before <= file.data && |file.data| == |before| + bytesLen && bytesLen % 8 == 0
      requires headerLen - 8 + dataBytesWritten + bytesLen <= U32_MAX && 8 <= headerLen
      requires dataBytesWritten == Synced() + bytesSinceCheckpoint
      requires dataBytesWritten % 8 == 0 && Synced() % 8 == 0 && Kept(file.durable, before, synced)
      modifies this`dataBytesWritten, this`currentOffset, this`bytesSinceCheckpoint
      ensures Valid() && dataBytesWritten == old(dataBytesWritten) + bytesLen
      ensures bytesSinceCheckpoint == old(bytesSinceCheckpoint) + bytesLen
    {
      hide Sized, HeaderOf, Kept, AddTruncating;
      NoWrap(dataBytesWritten, bytesLen);
      assert file.data == before + file.data[|before|..];
      KeptExtends(file.durable, before, file.data[|before|..], synced);
      dataBytesWritten := AddTruncating(dataBytesWritten, bytesLen);
      currentOffset := currentOffset + bytesLen;
      bytesSinceCheckpoint := bytesSinceCheckpoint + bytesLen;
    }

    // Appends one block. A failed write leaves the audio counted so far in place,
    // followed by a prefix of the block.
    method WriteBlock(block: AlignedBlock) returns (r: Result<(), IoError>)
      requires Valid() && block.Valid() && !WouldOverflow(block.validLen)
      modifies this`dataBytesWritten, this`currentOffset, this`bytesSinceCheckpoint, this`ioBuf, file`data, file.device
      ensures Fails(r.Err?, old(file.device.faults), file.device.faults) && (r.Err? ==> IsFault(r.error))
      ensures r.Ok? ==>
                && Valid() && file.data == old(file.data) + Interleaved(old(block.AsSlice()))
                && dataBytesWritten == old(dataBytesWritten) + 4 * block.validLen
                && bytesSinceCheckpoint == old(bytesSinceCheckpoint) + 4 * block.validLen
      ensures r.Err? ==>
                && old(file.data) <= file.data <= old(file.data) + Interleaved(old(block.AsSlice()))
                && unchanged(`dataBytesWritten) && unchanged(`currentOffset) && unchanged(`bytesSinceCheckpoint)
    {
      hide Interleaved, Template, Header, HeaderOf, Kept;
      TemplateHead(template);
      var validSamples := block.validLen;
      if validSamples == 0 {
        assert Interleaved(block.AsSlice()) == [];
        assert file.data + [] == file.data;
        return Ok(());
      }
      Interleave(block);
      var res := Submit();
      if res.Err? { return Err(res.error); }
      Account(validSamples * 4, old(file.data));
      return Ok(());
    }

    // Appending does not disturb what a crash leaves.
    lemma KeptExtends(durable: seq<byte>, before: seq<byte>, more: seq<byte>, n: Option<nat>)
      requires Sized() && Kept(durable, before, n)
      ensures Kept(durable, before + more, n)
    {
      hide Sized, HeaderOf;
      if n.Some? {
        assert (before + more)[headerLen..headerLen + n.value] == before[headerLen..headerLen + n.value];
      }
    }

    function CheckpointDue(): bool
      reads this
    {
      checkpointIntervalBytes > 0 && bytesSinceCheckpoint >= checkpointIntervalBytes
    }

    // Rewrites the header for the audio counted so far and syncs. The header can
    // always be built; the audio bytes never change; only success changes what a
    // crash leaves.
    method RewriteHeaderAndSync() returns (r: Result<(), IoError>)
      requires Valid()
      modifies this`synced, file, file.device
      ensures Fails(r.Err?, old(file.device.faults), file.device.faults) && (r.Err? ==> IsFault(r.error))
      ensures |file.data| == old(|file.data|) && Payload() == old(Payload())
      ensures r.Ok? ==>
                && Sound() && synced == Some(dataBytesWritten)
                && file.data == file.durable == HeaderOf(dataBytesWritten) + Payload()
      ensures r.Err? ==> file.durable == old(file.durable) && synced == old(synced)
    {
      hide Template, Header;
      var header := BuildWavHeader(Some(template), metadata, dataBytesWritten);
      HeaderFits(template, metadata, dataBytesWritten);
      if header.Err? { return Err(Malformed); }
      assert header.value == HeaderOf(dataBytesWritten);
      var res, rest := WriteAllAt(file, header.value, 0);
      var stored := if res.Ok? || res.error == InvalidData then header.value
                    else header.value[..|header.value| - |rest|];
      OverwriteHead(old(file.data), stored, headerLen);
      if res.Err? { return Err(res.error); }
      var sync := file.SyncAll();
      if sync.Err? { return Err(sync.error); }
      synced := Some(dataBytesWritten);
      assert file.data[headerLen..headerLen + dataBytesWritten] == Payload();
      return Ok(());
    }

    method Checkpoint() returns (r: Result<(), IoError>)
      requires Valid()
      modifies this`synced, this`bytesSinceCheckpoint, file, file.device
      ensures Fails(r.Err?, old(file.device.faults), file.device.faults) && (r.Err? ==> IsFault(r.error))
      ensures |file.data| == old(|file.data|) && Payload() == old(Payload())
      ensures r.Ok? ==>
                && Valid() && synced == Some(dataBytesWritten) && bytesSinceCheckpoint == 0
                && file.data == file.durable == HeaderOf(dataBytesWritten) + Payload()
      ensures r.Err? ==> file.durable == old(file.durable) && synced == old(synced)
    {
      hide Template, HeaderOf;
      r := RewriteHeaderAndSync();
      if r.Err? { return; }
      bytesSinceCheckpoint := 0;
    }

    method Finalize() returns (r: Result<(), IoError>)
      requires Valid()
      modifies this`synced, file, file.device
      ensures Fails(r.Err?, old(file.device.faults), file.device.faults) && (r.Err? ==> IsFault(r.error))
      ensures |file.data| == old(|file.data|) && Payload() == old(Payload())
      ensures r.Ok? ==>
                && Sound() && synced == Some(dataBytesWritten)
                && file.data == file.durable == HeaderOf(dataBytesWritten) + Payload()
      ensures r.Err? ==> file.durable == old(file.durable) && synced == old(synced)
    {
      hide Template, HeaderOf;
      r := RewriteHeaderAndSync();
    }
  }
}
