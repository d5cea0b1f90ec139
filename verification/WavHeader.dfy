/**
 The WAV header of a part (src/recording/wav_header.rs). The encoder library's
 output is a template; its size fields are patched after a byte search.
 */
module WavHeader {
  import opened Wrappers
  import opened Buffer
  import opened Io

  datatype HeaderError = Encoder | TooShort | RiffTooLarge | NoDataChunk | TruncatedData | ZeroFrame

  // ----- little-endian words -----

  function Le32(n: u32): (b: seq<byte>)
    ensures |b| == 4
  {
    var q1 := n / 0x100;
    var q2 := q1 / 0x100;
    var q3 := q2 / 0x100;
    [n % 0x100, q1 % 0x100, q2 % 0x100, q3]
  }

  function U32Of(b: seq<byte>): u32
    requires |b| == 4
  {
    var b0: int, b1: int, b2: int, b3: int := b[0], b[1], b[2], b[3];
    b0 + 0x100 * (b1 + 0x100 * (b2 + 0x100 * b3))
  }

  lemma Le32RoundTrip(n: u32)
    ensures U32Of(Le32(n)) == n
  {
  }

  function Window(h: seq<byte>, pos: nat): (w: seq<byte>)
    requires pos + 4 <= |h|
    ensures |w| == 4
  {
    h[pos..pos + 4]
  }

  const RIFF: seq<byte> := [0x52, 0x49, 0x46, 0x46]
  const WAVE: seq<byte> := [0x57, 0x41, 0x56, 0x45]
  const FMT: seq<byte> := [0x66, 0x6D, 0x74, 0x20]
  const DATA: seq<byte> := [0x64, 0x61, 0x74, 0x61]
  const FACT: seq<byte> := [0x66, 0x61, 0x63, 0x74]

  // The word whose little-endian bytes spell "fact".
  const FACT_WORD: u32 := 0x7463_6166

  // ----- building -----

  // The forward search for a chunk id.
  function Position(h: seq<byte>, id: seq<byte>, from: nat): (r: Option<nat>)
    ensures r.Some? ==> from <= r.value && r.value + 4 <= |h|
    decreases |h| - from
  {
    if from + 4 > |h| then None
    else if Window(h, from) == id then Some(from)
    else Position(h, id, from + 1)
  }

  // The backward search for a chunk id.
  function RPosition(h: seq<byte>, id: seq<byte>, upTo: nat): (r: Option<nat>)
    requires upTo + 3 <= |h|
    ensures r.Some? ==> r.value < upTo
  {
    if upTo == 0 then None
    else if Window(h, upTo - 1) == id then Some(upTo - 1)
    else RPosition(h, id, upTo - 1)
  }

  function Patch(h: seq<byte>, pos: nat, n: u32): (r: seq<byte>)
    requires pos + 4 <= |h|
    ensures |r| == |h|
  {
    h[..pos] + Le32(n) + h[pos + 4..]
  }

  // The patch of the "fact" sample count, if the search finds a plausible chunk.
  function PatchFact(h: seq<byte>, frames: u32): (r: seq<byte>)
    ensures |r| == |h|
  {
    var at := Position(h, FACT, 0);
    if at.Some? && at.value + 12 <= |h| && U32Of(Window(h, at.value + 4)) >= 4 then
      Patch(h, at.value + 8, frames)
    else h
  }

  // Frames in `n` bytes of 32-bit samples.
  function FrameCount(meta: AudioMetadata, n: u32): u32
    requires meta.channels > 0
  {
    var perFrame := meta.channels * 4;
    assert n / perFrame <= n;
    n / perFrame
  }

  // They are as many whole frames, one sample for each channel, as fit in the bytes.
  lemma FramesFill(meta: AudioMetadata, n: u32)
    requires meta.channels > 0
    ensures var frame := 4 * meta.channels;
            FrameCount(meta, n) * frame <= n < FrameCount(meta, n) * frame + frame
  {
    var frame := meta.channels * 4;
    assert n == n / frame * frame + n % frame;
  }

  function Header(template: seq<byte>, meta: AudioMetadata, dataBytes: u32): Result<seq<byte>, HeaderError> {
    if |template| < 8 then Err(TooShort)
    else if |template| - 8 + dataBytes > U32_MAX then Err(RiffTooLarge)
    else
      var sized := Patch(template, 4, |template| - 8 + dataBytes);
      var dataPos := RPosition(sized, DATA, |sized| - 3);
      if dataPos.None? then Err(NoDataChunk)
      else if dataPos.value + 8 > |sized| then Err(TruncatedData)
      else
        var filled := Patch(sized, dataPos.value + 4, dataBytes);
        if meta.bitDepth != 32 then Ok(filled)
        else if meta.channels == 0 then Err(ZeroFrame)
        else Ok(PatchFact(filled, FrameCount(meta, dataBytes)))
  }

  // ----- building in place -----

  // Stores a little-endian word over four bytes.
  method Store(header: array<byte>, pos: nat, n: u32)
    requires pos + 4 <= header.Length
    modifies header
    ensures header[..] == Patch(old(header[..]), pos, n)
  {
    hide Le32;
    var word := Le32(n);
    for i := 0 to 4
      invariant header[..pos] == old(header[..pos]) && header[pos + 4..] == old(header[pos + 4..])
      invariant header[pos..pos + i] == word[..i]
    {
      header[pos + i] := word[i];
    }
    ghost var was := old(header[..]);
    assert header[..] == header[..pos] + header[pos..pos + 4] + header[pos + 4..];
    assert was[..pos] == old(header[..pos]) && was[pos + 4..] == old(header[pos + 4..]);
  }

  method FindFirst(header: array<byte>, id: seq<byte>) returns (r: Option<nat>)
    ensures r == Position(header[..], id, 0)
  {
    hide Window;
    var i := 0;
    while i + 4 <= header.Length
      invariant Position(header[..], id, 0) == Position(header[..], id, i)
    {
      assert header[i..i + 4] == header[..][i..i + 4];
      if Window(header[..], i) == id { return Some(i); }
      i := i + 1;
    }
    return None;
  }

  method FindLast(header: array<byte>, id: seq<byte>) returns (r: Option<nat>)
    requires header.Length >= 3
    ensures r == RPosition(header[..], id, header.Length - 3)
  {
    hide Window;
    var i := header.Length - 3;
    while i > 0
      invariant 0 <= i <= header.Length - 3
      invariant RPosition(header[..], id, header.Length - 3) == RPosition(header[..], id, i)
    {
      if Window(header[..], i - 1) == id { return Some(i - 1); }
      i := i - 1;
    }
    return None;
  }

  // `template` is what the encoder library produced for `meta`, if it accepted it.
  method BuildWavHeader(template: Option<seq<byte>>, meta: AudioMetadata, dataBytes: u32)
    returns (r: Result<seq<byte>, HeaderError>)
    ensures r == if template.None? then Err(Encoder) else Header(template.value, meta, dataBytes)
  {
    hide Le32, U32Of, Window, Position, RPosition, Patch, FrameCount;
    if template.None? { return Err(Encoder); }
    var t := template.value;
    if |t| < 8 { return Err(TooShort); }
    var riffSize := |t| - 8 + dataBytes;
    if riffSize > U32_MAX { return Err(RiffTooLarge); }
    var header := new byte[|t|](i requires 0 <= i < |t| => t[i]);
    assert header[..] == t;
    Store(header, 4, riffSize);
    var dataPos := FindLast(header, DATA);
    if dataPos.None? { return Err(NoDataChunk); }
    if dataPos.value + 8 > header.Length { return Err(TruncatedData); }
    Store(header, dataPos.value + 4, dataBytes);
    if meta.bitDepth == 32 {
      if meta.channels == 0 { return Err(ZeroFrame); }
      var frames := FrameCount(meta, dataBytes);
      var factPos := FindFirst(header, FACT);
      if factPos.Some? && factPos.value + 12 <= header.Length {
        var chunkSize := U32Of(Window(header[..], factPos.value + 4));
        if chunkSize >= 4 { Store(header, factPos.value + 8, frames); }
      }
    }
    return Ok(header[..]);
  }

  // ----- reading -----

  datatype Fields = Fields(riff: u32, data: u32, fact: Option<u32>)

  // The offset after the chunk at `pos`: id, size, payload padded to even length.
  function ChunkEnd(h: seq<byte>, pos: nat): nat
    requires pos + 8 <= |h|
  {
    var size := U32Of(Window(h, pos + 4));
    pos + 8 + size + size % 2
  }

  // Walks the chunk list as any reader does, up to the data chunk.
  function ReadChunks(h: seq<byte>, pos: nat, riff: u32, fact: Option<u32>): Option<Fields>
    decreases |h| - pos
  {
    if pos + 8 > |h| then None
    else if Window(h, pos) == DATA then Some(Fields(riff, U32Of(Window(h, pos + 4)), fact))
    else
      var count := if Window(h, pos) == FACT && pos + 12 <= |h| then Some(U32Of(Window(h, pos + 8))) else fact;
      ReadChunks(h, ChunkEnd(h, pos), riff, count)
  }

  function ReadHeader(h: seq<byte>): Option<Fields> {
    if |h| < 12 || Window(h, 0) != RIFF || Window(h, 8) != WAVE then None
    else ReadChunks(h, 12, U32Of(Window(h, 4)), None)
  }

  // ----- templates -----

  // From `pos` the template is chunks, the last of them an empty data chunk.
  predicate Chunked(t: seq<byte>, pos: nat)
    decreases |t| - pos
  {
    && pos + 8 <= |t|
    && if pos + 8 == |t| then Window(t, pos) == DATA && Window(t, pos + 4) == [0, 0, 0, 0]
       else Window(t, pos) != DATA && ChunkEnd(t, pos) + 8 <= |t| && Chunked(t, ChunkEnd(t, pos))
  }

  // The offset of the first fact chunk from `pos` on.
  function FactChunk(t: seq<byte>, pos: nat): (r: Option<nat>)
    ensures r.Some? ==> pos <= r.value && r.value + 16 <= |t|
    decreases |t| - pos
  {
    if pos + 16 > |t| then None
    else if Window(t, pos) == FACT then Some(pos)
    else FactChunk(t, ChunkEnd(t, pos))
  }

  // A four-byte fact chunk, well before the data chunk, with none after it.
  predicate FactIsPlain(t: seq<byte>, pos: nat) {
    && 20 <= pos && pos + 20 <= |t| && Window(t, pos) == FACT
    && U32Of(Window(t, pos + 4)) == 4 && FactChunk(t, pos + 12).None?
  }

  // What the encoder library is taken to produce: the "fmt " chunk first, at most
  // one fact chunk (of four bytes), the data chunk last, and the letters "fact"
  // nowhere but at the fact chunk.
  predicate Template(t: seq<byte>) {
    && 28 <= |t| <= 0x1_0000
    && Window(t, 0) == RIFF && Window(t, 8) == WAVE && Window(t, 12) == FMT
    && Chunked(t, 12)
    && (var fact := FactChunk(t, 12);
        && (fact.Some? ==> FactIsPlain(t, fact.value))
        && forall i :: 8 <= i && i + 8 <= |t| && Window(t, i) == FACT ==> fact == Some(i))
  }

  // The three fields of a header built from `t`.
  predicate InSizeField(t: seq<byte>, i: nat)
    requires Template(t)
  {
    || 4 <= i < 8 || |t| - 4 <= i
    || (var fact := FactChunk(t, 12); fact.Some? && fact.value + 8 <= i < fact.value + 12)
  }

  predicate OnlySizesDiffer(h: seq<byte>, t: seq<byte>)
    requires Template(t)
  {
    |h| == |t| && forall i :: 0 <= i < |t| && !InSizeField(t, i) ==> h[i] == t[i]
  }

  // `h` is the template with exact sizes: a reader sees the RIFF size, the data
  // size and the frame count of `n` bytes of audio, and nothing else was touched.
  predicate Declares(h: seq<byte>, t: seq<byte>, meta: AudioMetadata, n: u32)
    requires Template(t) && meta.channels > 0 && |t| - 8 + n <= U32_MAX
  {
    && OnlySizesDiffer(h, t)
    && ReadHeader(h) == Some(Fields(|t| - 8 + n, n,
         if FactChunk(t, 12).Some? then Some(FrameCount(meta, n)) else None))
  }

  // ----- the searches -----

  lemma {:induction false} ChunkedTail(t: seq<byte>, pos: nat)
    requires Chunked(t, pos)
    ensures pos <= |t| - 8 && Window(t, |t| - 8) == DATA && Window(t, |t| - 4) == [0, 0, 0, 0]
    decreases |t| - pos
  {
    if pos + 8 < |t| { ChunkedTail(t, ChunkEnd(t, pos)); }
  }

  lemma BytesOf(h: seq<byte>, i: nat)
    requires i + 4 <= |h|
    ensures Window(h, i) == [h[i], h[i + 1], h[i + 2], h[i + 3]]
  {
  }

  lemma FactWordSpells()
    ensures Le32(FACT_WORD) == FACT && U32Of(FACT) == FACT_WORD && U32Of(WAVE) >= 4
  {
  }

  lemma {:induction false} PositionIsFirst(h: seq<byte>, id: seq<byte>, from: nat)
    ensures var r := Position(h, id, from);
            && (r.Some? ==> Window(h, r.value) == id)
            && forall i :: from <= i && i + 4 <= |h| && (r.Some? ==> i < r.value) ==> Window(h, i) != id
    decreases |h| - from
  {
    hide Window;
    if from + 4 <= |h| { PositionIsFirst(h, id, from + 1); }
  }

  lemma {:induction false} RPositionIsLast(h: seq<byte>, id: seq<byte>, upTo: nat)
    requires upTo + 3 <= |h|
    ensures var r := RPosition(h, id, upTo);
            && (r.Some? ==> Window(h, r.value) == id)
            && forall i :: 0 <= i < upTo && (r.Some? ==> r.value < i) ==> Window(h, i) != id
  {
    hide Window;
    if upTo > 0 { RPositionIsLast(h, id, upTo - 1); }
  }

  // The backward search finds the data chunk, whatever the RIFF size spells.
  lemma DataFound(t: seq<byte>, riff: u32)
    requires Template(t)
    ensures var sized := Patch(t, 4, riff); RPosition(sized, DATA, |sized| - 3) == Some(|t| - 8)
  {
    hide Template, Chunked, RPosition, Window, Patch;
    TemplateHead(t);
    var sized := Patch(t, 4, riff);
    forall i | |t| - 8 <= i <= |t| - 4 ensures Window(sized, i) == DATA <==> i == |t| - 8 {
      SizedTail(t, riff, i);
    }
    RPositionIsLast(sized, DATA, |sized| - 3);
    var at := RPosition(sized, DATA, |sized| - 3);
    assert Window(sized, |t| - 8) == DATA;
    assert at.Some? && |t| - 8 <= at.value <= |t| - 4;
  }

  lemma SizedTail(t: seq<byte>, riff: u32, i: nat)
    requires Template(t) && |t| - 8 <= i <= |t| - 4
    ensures Window(Patch(t, 4, riff), i) == DATA <==> i == |t| - 8
  {
    hide Template, Chunked;
    TemplateHead(t);
    ChunkedTail(t, 12);
    TailWindow(t, Patch(t, 4, riff), DATA, i);
  }

  // Windows over the tail "data", 0, 0, 0, 0.
  lemma TailWindow(t: seq<byte>, h: seq<byte>, id: seq<byte>, i: nat)
    requires |t| >= 8 && |h| == |t| && |t| - 8 <= i <= |t| - 4 && id in {DATA, FACT}
    requires Window(t, |t| - 8) == DATA && h[|t| - 8..|t| - 4] == t[|t| - 8..|t| - 4]
    requires id == DATA ==> Window(h, |t| - 4) == [0, 0, 0, 0]
    ensures Window(h, i) == id ==> (id == DATA && i == |t| - 8) || (id == FACT && i == |t| - 4)
    ensures i == |t| - 8 && id == DATA ==> Window(h, i) == id
  {
    BytesOf(h, i);
    BytesOf(h, |t| - 8);
    BytesOf(h, |t| - 4);
    assert Window(h, |t| - 8) == DATA;
  }

  // Windows that overlap "RIFF", the RIFF size and "WAVE".
  lemma HeadWindow(h: seq<byte>, i: nat)
    requires |h| >= 12 && i < 8 && i != 4 && Window(h, 0) == RIFF && Window(h, 8) == WAVE
    ensures Window(h, i) != FACT
  {
    BytesOf(h, 0);
    BytesOf(h, 8);
    BytesOf(h, i);
  }

  // `h` carries `riff` and `n` in its two size fields and is `t` elsewhere.
  predicate Filled(h: seq<byte>, t: seq<byte>, riff: u32, n: u32) {
    && |h| == |t| >= 28
    && Window(h, 4) == Le32(riff) && Window(h, |t| - 4) == Le32(n)
    && forall i :: 0 <= i < |t| - 4 && !(4 <= i < 8) ==> h[i] == t[i]
  }

  lemma PatchFills(t: seq<byte>, riff: u32, n: u32)
    requires |t| >= 28
    ensures Filled(Patch(Patch(t, 4, riff), |t| - 4, n), t, riff, n)
  {
    var sized := Patch(t, 4, riff);
    var h := Patch(sized, |t| - 4, n);
    assert Window(sized, 4) == Le32(riff);
    assert forall i :: 0 <= i < |t| - 4 ==> h[i] == sized[i];
    hide Le32;
    assert Window(h, 4) == Window(sized, 4);
  }

  lemma MiddleWindow(h: seq<byte>, t: seq<byte>, riff: u32, n: u32, i: nat)
    requires Filled(h, t, riff, n) && ((8 <= i && i + 8 <= |t|) || i == 0)
    ensures Window(h, i) == Window(t, i)
  {
    BytesOf(h, i);
    BytesOf(t, i);
  }

  // In a filled header the letters "fact" occur at the fact chunk, possibly in
  // the data size, and in the RIFF size exactly when that is FACT_WORD.
  lemma FactOccurs(h: seq<byte>, t: seq<byte>, riff: u32, n: u32, i: nat)
    requires Template(t) && Filled(h, t, riff, n) && i + 4 <= |t|
    ensures Window(h, i) == FACT ==>
              (i == 4 && riff == FACT_WORD) || FactChunk(t, 12) == Some(i) || i == |t| - 4
    ensures riff == FACT_WORD ==> Window(h, 4) == FACT
  {
    hide Chunked, FactChunk, Le32, U32Of;
    ChunkedTail(t, 12);
    Le32RoundTrip(riff);
    FactWordSpells();
    MiddleWindow(h, t, riff, n, 0);
    MiddleWindow(h, t, riff, n, 8);
    if i < 8 && i != 4 {
      HeadWindow(h, i);
    } else if 8 <= i && i + 8 <= |t| {
      MiddleWindow(h, t, riff, n, i);
    } else if i >= 8 {
      MiddleWindow(h, t, riff, n, |t| - 8);
      TailWindow(t, h, FACT, i);
    }
  }

  // ----- what a reader sees -----

  lemma SameWindow(h: seq<byte>, t: seq<byte>, i: nat)
    requires |h| == |t| && i + 4 <= |t| && forall j :: i <= j < i + 4 ==> h[j] == t[j]
    ensures Window(h, i) == Window(t, i)
  {
  }

  // `h` is `t` from `pos` to the data size, except for the frame count `count`.
  predicate PatchedFrom(h: seq<byte>, t: seq<byte>, pos: nat, count: u32) {
    var fact := FactChunk(t, pos);
    && |h| == |t| >= 8
    && (fact.Some? ==> FactIsPlain(t, fact.value) && Window(h, fact.value + 8) == Le32(count))
    && forall i :: pos <= i < |t| - 4 ==>
         h[i] == t[i] || (fact.Some? && fact.value + 8 <= i < fact.value + 12)
  }

  lemma FactChunkAt(t: seq<byte>, pos: nat)
    requires Chunked(t, pos) && pos + 8 < |t|
    ensures ChunkEnd(t, pos) + 8 <= |t| && Chunked(t, ChunkEnd(t, pos))
    ensures pos + 16 <= |t|
    ensures Window(t, pos) == FACT ==> FactChunk(t, pos) == Some(pos)
    ensures Window(t, pos) != FACT ==> FactChunk(t, pos) == FactChunk(t, ChunkEnd(t, pos))
  {
  }

  // At each chunk the patched header shows the same id and size.
  lemma ChunkPatched(h: seq<byte>, t: seq<byte>, pos: nat, count: u32)
    requires Chunked(t, pos) && PatchedFrom(h, t, pos, count)
    ensures Window(h, pos) == Window(t, pos)
    ensures pos + 8 < |t| ==> Window(h, pos + 4) == Window(t, pos + 4)
  {
    ChunkedTail(t, pos);
    hide Le32, U32Of, Chunked, FactChunk;
    SameWindow(h, t, pos);
    if pos + 8 < |t| { SameWindow(h, t, pos + 4); }
  }

  // A header's one fact chunk is not followed by another.
  lemma FactAtIsNone(t: seq<byte>, pos: nat, count: u32, h: seq<byte>)
    requires Chunked(t, pos) && pos + 8 < |t| && PatchedFrom(h, t, pos, count)
    ensures Window(t, pos) == FACT ==> FactChunk(t, ChunkEnd(t, pos)).None?
  {
    hide FactChunk, Chunked, Le32, U32Of, Window;
    FactChunkAt(t, pos);
  }

  lemma PatchedAfter(h: seq<byte>, t: seq<byte>, pos: nat, count: u32)
    requires Chunked(t, pos) && pos + 8 < |t| && PatchedFrom(h, t, pos, count)
    ensures PatchedFrom(h, t, ChunkEnd(t, pos), count)
  {
    hide Le32, U32Of, Chunked, FactChunk, Window, FactIsPlain, ChunkEnd;
    FactChunkAt(t, pos);
    FactAtIsNone(t, pos, count, h);
    EndsLater(t, pos);
  }

  lemma EndsLater(t: seq<byte>, pos: nat)
    requires Chunked(t, pos) && pos + 8 < |t|
    ensures pos + 8 <= ChunkEnd(t, pos)
    ensures Window(t, pos) == FACT && FactIsPlain(t, pos) ==> ChunkEnd(t, pos) == pos + 12
  {
    hide Le32, U32Of, Chunked, FactChunk, Window;
  }

  lemma ReadSkip(h: seq<byte>, pos: nat, riff: u32, acc: Option<u32>)
    requires pos + 12 <= |h| && Window(h, pos) != DATA
    ensures ReadChunks(h, pos, riff, acc)
         == ReadChunks(h, ChunkEnd(h, pos), riff, if Window(h, pos) == FACT then Some(U32Of(Window(h, pos + 8))) else acc)
  {
    hide U32Of, ChunkEnd;
  }

  lemma ReadData(h: seq<byte>, pos: nat, riff: u32, acc: Option<u32>)
    requires pos + 8 <= |h| && Window(h, pos) == DATA
    ensures ReadChunks(h, pos, riff, acc) == Some(Fields(riff, U32Of(Window(h, pos + 4)), acc))
  {
    hide U32Of, ChunkEnd;
  }

  // One step of the reader over a patched header.
  lemma ReadStep(h: seq<byte>, t: seq<byte>, pos: nat, riff: u32, n: u32, count: u32, acc: Option<u32>)
    requires Chunked(t, pos) && PatchedFrom(h, t, pos, count) && Window(h, |t| - 4) == Le32(n)
    ensures ReadChunks(h, pos, riff, acc)
         == if pos + 8 == |t| then Some(Fields(riff, n, acc))
            else ReadChunks(h, ChunkEnd(t, pos), riff, if Window(t, pos) == FACT then Some(count) else acc)
  {
    ChunkPatched(h, t, pos, count);
    Le32RoundTrip(n);
    Le32RoundTrip(count);
    ChunkedTail(t, pos);
    if pos + 8 < |t| {
      FactChunkAt(t, pos);
      assert Window(t, pos) != DATA;
      assert ChunkEnd(h, pos) == ChunkEnd(t, pos);
      hide Le32, U32Of, FactChunk, FactIsPlain, Chunked, ReadChunks, ChunkEnd;
      ReadSkip(h, pos, riff, acc);
    } else {
      hide Le32, U32Of, FactChunk, FactIsPlain, Chunked, ReadChunks;
      ReadData(h, pos, riff, acc);
    }
  }

  // Patching sizes and the frame count leaves the chunk list walkable.
  lemma {:induction false} WalkPatched(h: seq<byte>, t: seq<byte>, pos: nat, riff: u32, n: u32,
                                       count: u32, acc: Option<u32>)
    requires Chunked(t, pos) && PatchedFrom(h, t, pos, count) && Window(h, |t| - 4) == Le32(n)
    ensures ReadChunks(h, pos, riff, acc)
         == Some(Fields(riff, n, if FactChunk(t, pos).Some? then Some(count) else acc))
    decreases |t| - pos
  {
    ReadStep(h, t, pos, riff, n, count, acc);
    if pos + 8 < |t| {
      FactChunkAt(t, pos);
      PatchedAfter(h, t, pos, count);
      hide Le32, U32Of, PatchedFrom, Chunked, FactChunk, ReadChunks, Window;
      WalkPatched(h, t, ChunkEnd(t, pos), riff, n, count, if Window(t, pos) == FACT then Some(count) else acc);
      FactAtIsNone(t, pos, count, h);
    }
  }

  lemma TemplateHead(t: seq<byte>)
    requires Template(t)
    ensures 28 <= |t| <= 0x1_0000 && Window(t, 0) == RIFF && Window(t, 8) == WAVE && Chunked(t, 12)
  {
  }

  // A header can be built exactly while the RIFF size fits its field, and its
  // length never depends on the amount of audio.
  lemma HeaderFits(t: seq<byte>, meta: AudioMetadata, n: u32)
    requires Template(t)
    ensures var h := Header(t, meta, n);
            && (h.Ok? <==> |t| - 8 + n <= U32_MAX && (meta.bitDepth == 32 ==> meta.channels > 0))
            && (h.Ok? ==> |h.value| == |t|)
  {
    hide Template, RPosition, Patch, PatchFact, FrameCount, Window, Le32;
    TemplateHead(t);
    if |t| - 8 + n <= U32_MAX { DataFound(t, |t| - 8 + n); }
  }

  // The header before its fact chunk is patched.
  function FilledHeader(t: seq<byte>, n: u32): seq<byte>
    requires |t| >= 28 && |t| - 8 + n <= U32_MAX
  {
    Patch(Patch(t, 4, |t| - 8 + n), |t| - 4, n)
  }

  lemma HeaderUnfolds(t: seq<byte>, meta: AudioMetadata, n: u32, sized: seq<byte>)
    requires 28 <= |t| == |sized| && |t| - 8 + n <= U32_MAX && sized == Patch(t, 4, |t| - 8 + n)
    requires meta.bitDepth == 32 && meta.channels > 0
    requires RPosition(sized, DATA, |sized| - 3) == Some(|sized| - 8)
    ensures Header(t, meta, n) == Ok(PatchFact(Patch(sized, |sized| - 4, n), FrameCount(meta, n)))
  {
    hide Le32, Window, RPosition, Patch, PatchFact, FrameCount;
  }

  lemma HeaderFills(t: seq<byte>, meta: AudioMetadata, n: u32)
    requires Template(t) && meta.bitDepth == 32 && meta.channels > 0 && |t| - 8 + n <= U32_MAX
    ensures Header(t, meta, n) == Ok(PatchFact(FilledHeader(t, n), FrameCount(meta, n)))
    ensures Filled(FilledHeader(t, n), t, |t| - 8 + n, n)
  {
    hide Template, Header, Filled, RPosition, Patch, PatchFact, FrameCount, Window, Le32;
    TemplateHead(t);
    DataFound(t, |t| - 8 + n);
    PatchFills(t, |t| - 8 + n, n);
    HeaderUnfolds(t, meta, n, Patch(t, 4, |t| - 8 + n));
  }

  // Where the forward search for the fact chunk ends up.
  lemma FactFound(h: seq<byte>, t: seq<byte>, riff: u32, n: u32)
    requires Template(t) && Filled(h, t, riff, n)
    ensures var at := Position(h, FACT, 0);
            if riff == FACT_WORD then at == Some(4)
            else if FactChunk(t, 12).Some? then at == FactChunk(t, 12)
            else at.None? || at.value == |t| - 4
  {
    var at := Position(h, FACT, 0);
    var fact := FactChunk(t, 12);
    PositionIsFirst(h, FACT, 0);
    if at.Some? { FactOccurs(h, t, riff, n, at.value); }
    FactOccurs(h, t, riff, n, 4);
    if fact.Some? { MiddleWindow(h, t, riff, n, fact.value); }
    hide Template, Filled, FactChunk, Le32;
  }

  // The built header declares exactly `n` bytes of audio, unless the RIFF size
  // itself spells "fact": then the search stops there and the frame count is
  // written over the "fmt " chunk id.
  lemma HeaderIsExact(t: seq<byte>, meta: AudioMetadata, n: u32)
    requires Template(t) && meta.bitDepth == 32 && meta.channels > 0 && |t| - 8 + n <= U32_MAX
    ensures var h := Header(t, meta, n);
            h.Ok? && |h.value| == |t| && (Declares(h.value, t, meta, n) <==> |t| - 8 + n != FACT_WORD)
  {
    HeaderFills(t, meta, n);
    if |t| - 8 + n == FACT_WORD { HeaderMisled(t, meta, n); } else { HeaderDeclares(t, meta, n); }
  }

  // Without the coincidence the fact search ends at the fact chunk.
  lemma CountLands(t: seq<byte>, filled: seq<byte>, riff: u32, n: u32, count: u32)
    requires Template(t) && Filled(filled, t, riff, n) && riff != FACT_WORD
    ensures Counted(PatchFact(filled, count), filled, FactChunk(t, 12), count)
  {
    hide Template, Filled, FactChunk, Le32, U32Of, Patch, Position;
    FactFound(filled, t, riff, n);
    FactSize(t, filled, riff, n);
    FilledLength(t, filled, riff, n);
  }

  lemma FilledLength(t: seq<byte>, filled: seq<byte>, riff: u32, n: u32)
    requires Filled(filled, t, riff, n)
    ensures |filled| == |t| >= 28
  {
  }

  lemma FactSize(t: seq<byte>, filled: seq<byte>, riff: u32, n: u32)
    requires Template(t) && Filled(filled, t, riff, n)
    ensures var fact := FactChunk(t, 12);
            fact.Some? ==> fact.value + 20 <= |t| && U32Of(Window(filled, fact.value + 4)) == 4
  {
    hide Template, Filled, FactChunk, Le32, U32Of, Window;
    TemplateFact(t);
    FilledLength(t, filled, riff, n);
    var fact := FactChunk(t, 12);
    if fact.Some? { MiddleWindow(filled, t, riff, n, fact.value + 4); }
  }

  lemma HeaderDeclares(t: seq<byte>, meta: AudioMetadata, n: u32)
    requires Template(t) && meta.bitDepth == 32 && meta.channels > 0 && |t| - 8 + n <= U32_MAX
    requires |t| - 8 + n != FACT_WORD
    ensures var h := Header(t, meta, n); h.Ok? && Declares(h.value, t, meta, n)
  {
    hide Template, Header, FrameCount, PatchFact, FilledHeader, FactChunk, Filled, Declares, Counted;
    TemplateHead(t);
    HeaderFills(t, meta, n);
    CountLands(t, FilledHeader(t, n), |t| - 8 + n, n, FrameCount(meta, n));
    DeclaresShape(PatchFact(FilledHeader(t, n), FrameCount(meta, n)), FilledHeader(t, n), t, meta, n);
  }

  lemma TemplateFact(t: seq<byte>)
    requires Template(t)
    ensures var fact := FactChunk(t, 12); fact.Some? ==> FactIsPlain(t, fact.value)
  {
  }

  // A reader of the sized template with its frame count patched at `fact`.
  lemma ReadBack(h: seq<byte>, t: seq<byte>, riff: u32, n: u32, count: u32)
    requires |h| == |t| >= 28 && Chunked(t, 12) && PatchedFrom(h, t, 12, count)
    requires Window(h, 0) == RIFF && Window(h, 8) == WAVE
    requires U32Of(Window(h, 4)) == riff && Window(h, |t| - 4) == Le32(n)
    ensures ReadHeader(h) == Some(Fields(riff, n, if FactChunk(t, 12).Some? then Some(count) else None))
  {
    hide Le32, U32Of, FactChunk, ReadChunks, PatchedFrom, Window, Chunked;
    WalkPatched(h, t, 12, riff, n, count, None);
  }

  // `h` is the filled header with the frame count of the template's fact chunk.
  predicate Counted(h: seq<byte>, filled: seq<byte>, at: Option<nat>, count: u32) {
    && |h| == |filled| && (at.Some? ==> at.value + 20 <= |filled|)
    && h == if at.Some? then Patch(filled, at.value + 8, count) else filled
  }

  lemma CountedPatches(h: seq<byte>, filled: seq<byte>, t: seq<byte>, riff: u32, n: u32, count: u32)
    requires Template(t) && Filled(filled, t, riff, n) && Counted(h, filled, FactChunk(t, 12), count)
    ensures |h| == |t| && PatchedFrom(h, t, 12, count) && OnlySizesDiffer(h, t)
    ensures Window(h, 0) == RIFF && Window(h, 8) == WAVE
    ensures U32Of(Window(h, 4)) == riff && Window(h, |t| - 4) == Le32(n)
  {
    hide Le32, U32Of, Patch, FactChunk, PatchedFrom, Template, Window, InSizeField, SameExcept, Chunked;
    TemplateHead(t);
    TemplateFact(t);
    PatchElements(filled, h, FactChunk(t, 12), count);
    SizesShown(h, filled, t, riff, n, FactChunk(t, 12));
    ShapePatched(h, filled, t, riff, n, count);
  }

  lemma DeclaresShape(h: seq<byte>, filled: seq<byte>, t: seq<byte>, meta: AudioMetadata, n: u32)
    requires Template(t) && meta.channels > 0 && |t| - 8 + n <= U32_MAX
    requires Filled(filled, t, |t| - 8 + n, n)
    requires Counted(h, filled, FactChunk(t, 12), FrameCount(meta, n))
    ensures Declares(h, t, meta, n)
  {
    hide Le32, U32Of, FrameCount, Counted, FactChunk, ReadHeader, Filled, PatchedFrom, Template, Window,
         InSizeField, OnlySizesDiffer, Chunked;
    TemplateHead(t);
    var riff, count := |t| - 8 + n, FrameCount(meta, n);
    CountedPatches(h, filled, t, riff, n, count);
    ReadBack(h, t, riff, n, count);
  }

  lemma ShapePatched(h: seq<byte>, filled: seq<byte>, t: seq<byte>, riff: u32, n: u32, count: u32)
    requires Template(t) && Filled(filled, t, riff, n) && SameExcept(h, filled, FactChunk(t, 12))
    requires var fact := FactChunk(t, 12); fact.Some? ==> Window(h, fact.value + 8) == Le32(count)
    ensures PatchedFrom(h, t, 12, count) && OnlySizesDiffer(h, t)
  {
    hide Le32, U32Of, Chunked, FactChunk;
  }

  lemma SizesShown(h: seq<byte>, filled: seq<byte>, t: seq<byte>, riff: u32, n: u32, fact: Option<nat>)
    requires Filled(filled, t, riff, n) && SameExcept(h, filled, fact)
    requires fact.Some? ==> 20 <= fact.value && fact.value + 20 <= |t|
    ensures Window(h, 0) == Window(t, 0) && Window(h, 8) == Window(t, 8)
    ensures U32Of(Window(h, 4)) == riff && Window(h, |t| - 4) == Le32(n)
  {
    Le32RoundTrip(riff);
    hide Le32, U32Of;
    SameWindow(h, filled, 4);
    SameWindow(h, filled, |t| - 4);
    SameWindow(h, t, 0);
    SameWindow(h, t, 8);
  }

  // `h` is `g` except for the frame count of the fact chunk at `at`.
  predicate SameExcept(h: seq<byte>, g: seq<byte>, at: Option<nat>) {
    |h| == |g| && forall i :: 0 <= i < |h| && !(at.Some? && at.value + 8 <= i < at.value + 12) ==> h[i] == g[i]
  }

  lemma PatchElements(filled: seq<byte>, h: seq<byte>, at: Option<nat>, count: u32)
    requires at.Some? ==> at.value + 12 <= |filled|
    requires h == if at.Some? then Patch(filled, at.value + 8, count) else filled
    ensures |h| == |filled| && SameExcept(h, filled, at)
    ensures at.Some? ==> Window(h, at.value + 8) == Le32(count)
  {
    hide Le32;
  }

  lemma QuarterBound(n: nat, d: nat)
    requires d >= 4
    ensures 4 * (n / d) <= n
  {
    var q := n / d;
    assert q * d <= n;
    assert q * d == q * 4 + q * (d - 4);
  }

  // A frame is at least four bytes, so no frame count can spell "fmt " there.
  lemma CountIsNotFmt(meta: AudioMetadata, n: u32)
    requires meta.channels > 0 && n <= FACT_WORD
    ensures Le32(FrameCount(meta, n)) != FMT
  {
    QuarterBound(n, meta.channels * 4);
    Le32RoundTrip(FrameCount(meta, n));
    assert U32Of(FMT) == 0x2074_6D66;
    hide Le32, U32Of;
  }

  lemma DeclaresKeepsFmt(h: seq<byte>, t: seq<byte>, meta: AudioMetadata, n: u32)
    requires Template(t) && meta.channels > 0 && |t| - 8 + n <= U32_MAX
    ensures Declares(h, t, meta, n) ==> Window(h, 12) == FMT
  {
    hide Chunked, FactChunk, ReadHeader;
    if Declares(h, t, meta, n) { SameWindow(h, t, 12); }
  }

  lemma HeaderMisled(t: seq<byte>, meta: AudioMetadata, n: u32)
    requires Template(t) && meta.bitDepth == 32 && meta.channels > 0 && |t| - 8 + n == FACT_WORD
    ensures var h := Header(t, meta, n);
            h.Ok? && |h.value| == |t| && Window(h.value, 12) != FMT && !Declares(h.value, t, meta, n)
  {
    var count := FrameCount(meta, n);
    var filled := FilledHeader(t, n);
    HeaderFills(t, meta, n);
    FactFound(filled, t, FACT_WORD, n);
    MiddleWindow(filled, t, FACT_WORD, n, 8);
    FactWordSpells();
    CountIsNotFmt(meta, n);
    var h := PatchFact(filled, count);
    PatchElements(filled, h, Some(4), count);
    hide Header, FrameCount, Le32, U32Of, Patch, Chunked, FactChunk, Filled, ReadHeader;
    DeclaresKeepsFmt(h, t, meta, n);
  }

  // With a word-aligned template and whole 32-bit samples the search is never misled.
  lemma AlignedHeaderIsExact(t: seq<byte>, meta: AudioMetadata, n: u32)
    requires Template(t) && meta.bitDepth == 32 && meta.channels > 0 && |t| - 8 + n <= U32_MAX
    requires |t| % 4 == 0 && n % 4 == 0
    ensures var h := Header(t, meta, n);
            h.Ok? && |h.value| == |t| && Declares(h.value, t, meta, n)
  {
    hide Template, Header, Declares;
    HeaderIsExact(t, meta, n);
    assert (|t| - 8 + n) % 4 == 0;
  }

  // ----- a template -----

  // The shape the encoder library gives a 32-bit float file: a 16-byte format
  // chunk, the fact chunk, the empty data chunk.
  function ExampleByte(i: nat): byte {
    if i < 4 then RIFF[i]
    else if i == 4 then 48
    else if 8 <= i < 12 then WAVE[i - 8]
    else if 12 <= i < 16 then FMT[i - 12]
    else if i == 16 then 16
    else if i == 20 then 3
    else if i == 22 then 2
    else if 36 <= i < 40 then FACT[i - 36]
    else if i == 40 then 4
    else if 48 <= i < 52 then DATA[i - 48]
    else 0
  }

  function Example(): (t: seq<byte>)
    ensures |t| == 56 && forall i :: 0 <= i < 56 ==> t[i] == ExampleByte(i)
  {
    seq(56, i requires 0 <= i < 56 => ExampleByte(i))
  }

  lemma ExampleWindow(i: nat)
    requires i <= 52
    ensures Window(Example(), i) == [ExampleByte(i), ExampleByte(i + 1), ExampleByte(i + 2), ExampleByte(i + 3)]
  {
    hide ExampleByte, Example;
    BytesOf(Example(), i);
  }

  // The letters "fact" are at the fact chunk only.
  lemma ExampleFact(i: nat)
    requires i <= 52
    ensures Window(Example(), i) == FACT <==> i == 36
  {
    hide Example, Window;
    ExampleWindow(i);
  }

  lemma ExampleWalk(pos: nat, size: u32, end: nat)
    requires pos + 8 <= 56 && Window(Example(), pos + 4) == Le32(size) && end == pos + 8 + size + size % 2
    ensures ChunkEnd(Example(), pos) == end
  {
    hide Example, Window, Le32, U32Of;
    Le32RoundTrip(size);
  }

  lemma ExampleChunked()
    ensures Chunked(Example(), 12) && FactChunk(Example(), 12) == Some(36)
    ensures U32Of(Window(Example(), 40)) == 4 && FactChunk(Example(), 48).None?
  {
    hide Example, Window, U32Of;
    var t := Example();
    ExampleWindow(12);
    ExampleWindow(16);
    ExampleWindow(36);
    ExampleWindow(40);
    ExampleWindow(48);
    ExampleWindow(52);
    ExampleWalk(12, 16, 36);
    ExampleWalk(36, 4, 48);
    Le32RoundTrip(4);
    hide Le32, ExampleByte, ChunkEnd;
    assert Chunked(t, 48) && FactChunk(t, 48).None?;
    assert Chunked(t, 36) && FactChunk(t, 36) == Some(36);
  }

  // The assumptions on a template can be met, by a word-aligned one.
  lemma ExampleIsTemplate()
    ensures Template(Example()) && |Example()| % 4 == 0
  {
    hide Example, Window, Chunked, FactChunk, U32Of;
    ExampleChunked();
    ExampleWindow(0);
    ExampleWindow(8);
    ExampleWindow(12);
    forall i | 8 <= i && i + 8 <= 56 && Window(Example(), i) == FACT ensures i == 36 {
      ExampleFact(i);
    }
    ExampleFact(36);
  }
}
