/**
 What a session leaves behind: exact files and summary after a clean exit, and a
 bounded loss at any crash before it.
 */
module SessionResults {
  import opened Wrappers
  import opened Buffer
  import opened Io
  import opened WavHeader
  import opened WavWriter
  import opened Parts
  import opened Naming
  import opened Session

  // A part's bytes, finished or saved so far: a header that declares exactly the
  // audio behind it, byte for byte, always so for a word-aligned template.
  lemma ImageIsExact(image: seq<byte>, hound: Encoder, part: Part, audio: nat)
    requires Regular(hound) && IsImage(image, hound, part, audio)
    requires part.meta.bitDepth == 32 && part.meta.channels > 0
    ensures ExactImage(image, hound, part, audio)
  {
    hide Template, Header, Declares, AudioBytes;
    var t := hound(part.meta).value;
    HeaderFits(t, part.meta, audio);
    HeaderIsExact(t, part.meta, audio);
    if |t| % 4 == 0 && audio % 4 == 0 { AlignedHeaderIsExact(t, part.meta, audio); }
    SplitAt(Header(t, part.meta, audio).value, AudioBytes(part.blocks)[..audio]);
  }

  lemma SplitAt(head: seq<byte>, tail: seq<byte>)
    ensures (head + tail)[..|head|] == head && (head + tail)[|head|..] == tail
  {
  }

  // A reader of `image` finds the first `audio` bytes of the part's audio, and a
  // header that declares just these: always so for whole samples behind a
  // word-aligned template, and unless the RIFF size spells "fact" for any other.
  ghost predicate ExactImage(image: seq<byte>, hound: Encoder, part: Part, audio: nat) {
    && hound(part.meta).Some? && Template(hound(part.meta).value) && part.meta.channels > 0
    && audio <= U32_MAX && audio <= |AudioBytes(part.blocks)|
    && var t := hound(part.meta).value;
    && |t| - 8 + audio <= U32_MAX && |image| == |t| + audio
    && image[|t|..] == AudioBytes(part.blocks)[..audio]
    && (Declares(image[..|t|], t, part.meta, audio) <==> |t| - 8 + audio != FACT_WORD)
    && (|t| % 4 == 0 && audio % 4 == 0 ==> Declares(image[..|t|], t, part.meta, audio))
  }

  // A finished part of a stereo session: its file is exact, and the summary counts
  // the same bytes and frames under the path that holds it.
  lemma FinishedPartIsExact(sess: Session, k: nat)
    requires sess.Consistent() && k < |sess.parts| && Whole(sess.files, sess.hound, sess.parts)
    requires sess.parts[k].meta.bitDepth == 32 && sess.parts[k].meta.channels == 2
    ensures var part, seg := sess.parts[k], sess.summary.segments[k];
            var audio := AudioBytes(part.blocks);
            && ExactImage(sess.files[k].durable, sess.hound, part, |audio|) && |audio| % 4 == 0
            && audio[..|audio|] == audio
            && seg.dataBytes == |audio| && seg.frames == FrameCount(part.meta, |audio|)
            && seg.path in sess.dir.entries && sess.dir.entries[seg.path] == sess.files[k]
            && NamedFor(seg.path, k + 1)
  {
    hide Template, AudioBytes, IsImage, ExactImage, NamedFor, Preserved;
    var part := sess.parts[k];
    assert FinishedFile(sess.files[k], sess.hound, part);
    assert sess.summary.segments[k] == SegmentOf(sess.summary.segments[k].path, part);
    hide Session.Consistent, Whole, Listed, FinishedFile;
    ImageIsExact(sess.files[k].durable, sess.hound, part, |AudioBytes(part.blocks)|);
    assert AudioBytes(part.blocks)[..|AudioBytes(part.blocks)|] == AudioBytes(part.blocks);
  }

  // What a crash leaves of the last part whenever a call has returned, with or
  // without an error: nothing before the first sync, then exactly the audio up to the
  // last one behind its header, which a reader of a float format takes for just that.
  // At most one interval and one block lies past it.
  lemma CrashImageIsExact(sess: Session)
    requires Regular(sess.hound) && sess.Salvage() && sess.parts != []
    ensures SavedExactly(Last(sess.files).durable, sess.hound, Last(sess.parts), sess.kept)
    ensures sess.interval(Last(sess.parts).meta) > 0 ==>
              |AudioBytes(Last(sess.parts).blocks)|
              < Amount(sess.kept) + sess.interval(Last(sess.parts).meta) + 4 * MAX_BLOCK_SIZE
  {
    hide Template, AudioBytes, IsImage, ExactImage, Whole;
    var part := Last(sess.parts);
    if sess.kept.Some? && part.meta.bitDepth == 32 && part.meta.channels > 0 {
      ImageIsExact(Last(sess.files).durable, sess.hound, part, sess.kept.value);
    }
  }

  ghost predicate SavedExactly(durable: seq<byte>, hound: Encoder, part: Part, kept: Option<nat>) {
    && Saved(durable, hound, part, kept)
    && (kept.Some? && part.meta.bitDepth == 32 && part.meta.channels > 0 ==>
          ExactImage(durable, hound, part, kept.value))
  }

  // Between two blocks less than one checkpoint interval lies past the last sync.
  lemma CrashLosesLessThanInterval(sess: Session)
    requires sess.Valid() && sess.parts != []
    ensures SavedExactly(Last(sess.files).durable, sess.hound, Last(sess.parts), sess.kept)
    ensures sess.interval(Last(sess.parts).meta) > 0 ==>
              |AudioBytes(Last(sess.parts).blocks)| < Amount(sess.kept) + sess.interval(Last(sess.parts).meta)
  {
    hide Template, AudioBytes, SavedExactly, Whole, Listed, WavWriter.Recoverable;
    sess.LiveSalvage();
    CrashImageIsExact(sess);
  }

  // ----- the summary adds up -----

  function BlocksIn(parts: seq<Part>): seq<Block> {
    if parts == [] then [] else BlocksIn(Init(parts)) + Last(parts).blocks
  }

  lemma {:induction false} AudioOfBlocks(blocks: seq<Block>)
    ensures AudioOf(AudioEvents(blocks)) == blocks
  {
    if blocks != [] {
      AudioOfBlocks(Init(blocks));
      AudioOfAppend(AudioEvents(Init(blocks)), Audio(Last(blocks)));
    }
  }

  lemma AudioOfPart(part: Part)
    ensures AudioOf(PartEvents(part)) == part.blocks
  {
    hide AudioOf;
    AudioOfBlocks(part.blocks);
    if !part.rolled {
      AudioOfConcat([Format(part.meta)], AudioEvents(part.blocks));
      NoAudioInFormat(part.meta);
    }
  }

  lemma NoAudioInFormat(meta: AudioMetadata)
    ensures AudioOf([Format(meta)]) == []
  {
    assert [Format(meta)][..0] == [];
  }

  lemma {:induction false} BlocksAreAudio(parts: seq<Part>)
    ensures BlocksIn(parts) == AudioOf(EventsIn(parts))
  {
    hide AudioOf, PartEvents;
    if parts != [] {
      BlocksAreAudio(Init(parts));
      AudioOfPart(Last(parts));
      AudioOfConcat(EventsIn(Init(parts)), PartEvents(Last(parts)));
    } else {
      NothingTold();
      AudioOfNothing();
    }
  }

  lemma {:induction false} AudioBytesConcat(a: seq<Block>, b: seq<Block>)
    ensures AudioBytes(a + b) == AudioBytes(a) + AudioBytes(b)
  {
    hide Interleaved, AudioBytes;
    if b == [] {
      NoAudio();
      assert a + b == a && AudioBytes(a) + [] == AudioBytes(a);
    } else {
      AudioBytesConcat(a, Init(b));
      assert a + b == (a + Init(b)) + [Last(b)] && b == Init(b) + [Last(b)];
      AudioBytesAppend(a + Init(b), Last(b));
      AudioBytesAppend(Init(b), Last(b));
      assert (AudioBytes(a) + AudioBytes(Init(b))) + Interleaved(Last(b))
          == AudioBytes(a) + (AudioBytes(Init(b)) + Interleaved(Last(b)));
    }
  }

  lemma {:induction false} SumIsAudio(entries: map<string, File>, segments: seq<CaptureSegment>,
                                      files: seq<File>, parts: seq<Part>)
    requires Listed(entries, segments, files, parts)
    ensures SumBytes(segments) == |AudioBytes(BlocksIn(parts))|
  {
    hide AudioBytes;
    if parts == [] {
      NoAudio();
    } else {
      SumIsAudio(entries, Init(segments), Init(files), Init(parts));
      AudioBytesConcat(BlocksIn(Init(parts)), Last(parts).blocks);
    }
  }

  // The parts of a session hold all its audio in order, block by block, except the
  // blocks before the first format, and the summary's total is its size.
  lemma SessionHoldsAllAudio(sess: Session, events: seq<Event>)
    requires sess.Consistent() && sess.parts == PartsOf(sess.hound, events)
    ensures EventsIn(sess.parts) == events[Headless(events)..]
    ensures Headless(events) <= |AudioOf(events)| && BlocksIn(sess.parts) == AudioOf(events)[Headless(events)..]
    ensures SumBytes(sess.summary.segments) == |AudioBytes(BlocksIn(sess.parts))|
    ensures InPlace(sess.hound, sess.parts)
  {
    hide AudioBytes, PartsOf, EventsIn, BlocksIn, SumBytes, AudioOf, InPlace, Listed, FromFirstFormat, Headless;
    PartsTell(sess.hound, events);
    HeadlessIsAudio(events);
    BlocksAreAudio(sess.parts);
    SumIsAudio(sess.dir.entries, sess.summary.segments, sess.files, sess.parts);
    RolloverOnlyWhenFull(sess.hound, events);
  }
}
