/**
 What a session should leave on disk for a list of confirmed events: the parts,
 the formats that opened them and the RIFF rollovers (src/recording/disk.rs:991-1035,
 1093-1136, 676-893).
 */
module Parts {
  import opened Wrappers
  import opened Buffer
  import opened Io
  import opened WavHeader
  import opened WavWriter

  // One file: its format, its blocks, and whether the RIFF limit opened it.
  datatype Part = Part(meta: AudioMetadata, blocks: seq<Block>, rolled: bool)

  // The encoder library: its header for no samples, if it accepts the format.
  type Encoder = AudioMetadata -> Option<seq<byte>>

  ghost predicate Regular(hound: Encoder) {
    forall meta: AudioMetadata :: hound(meta).Some? ==> Template(hound(meta).value)
  }

  function HeaderLen(hound: Encoder, meta: AudioMetadata): nat {
    match hound(meta)
    case Some(t) => |t|
    case None => 8
  }

  function Last<T>(s: seq<T>): T
    requires s != []
  {
    s[|s| - 1]
  }

  function Init<T>(s: seq<T>): seq<T>
    requires s != []
  {
    s[..|s| - 1]
  }

  // No RIFF size field could count this block in the part.
  predicate Full(hound: Encoder, part: Part, block: Block) {
    HeaderLen(hound, part.meta) - 8 + |AudioBytes(part.blocks)| + 4 * |block| > U32_MAX
  }

  function AddBlock(hound: Encoder, parts: seq<Part>, block: Block): seq<Part> {
    if parts == [] then []
    else if Full(hound, Last(parts), block) then parts + [Part(Last(parts).meta, [block], true)]
    else Init(parts) + [Last(parts).(blocks := Last(parts).blocks + [block])]
  }

  function AddEvent(hound: Encoder, parts: seq<Part>, e: Event): seq<Part> {
    match e
    case Format(meta) => parts + [Part(meta, [], false)]
    case Audio(block) => AddBlock(hound, parts, block)
  }

  function PartsOf(hound: Encoder, events: seq<Event>): seq<Part> {
    if events == [] then [] else AddEvent(hound, PartsOf(hound, Init(events)), Last(events))
  }

  // What a failure may leave of one event: nothing done, the rollover alone, or all.
  predicate Interrupted(hound: Encoder, before: seq<Part>, e: Event, parts: seq<Part>) {
    || parts == before
    || parts == AddEvent(hound, before, e)
    || (e.Audio? && before != [] && Full(hound, Last(before), e.block)
        && parts == before + [Part(Last(before).meta, [], true)])
  }

  lemma PartsOfAppend(hound: Encoder, events: seq<Event>, e: Event)
    ensures PartsOf(hound, events + [e]) == AddEvent(hound, PartsOf(hound, events), e)
  {
    assert Init(events + [e]) == events;
  }

  // ----- nothing is lost, added or moved -----

  function AudioEvents(blocks: seq<Block>): seq<Event> {
    if blocks == [] then [] else AudioEvents(Init(blocks)) + [Audio(Last(blocks))]
  }

  function PartEvents(part: Part): seq<Event> {
    if part.rolled then AudioEvents(part.blocks) else [Format(part.meta)] + AudioEvents(part.blocks)
  }

  // The events the parts tell: a rollover adds none.
  function EventsIn(parts: seq<Part>): seq<Event> {
    if parts == [] then [] else EventsIn(Init(parts)) + PartEvents(Last(parts))
  }

  // Audio before the first format has no file to go to.
  function FromFirstFormat(events: seq<Event>): seq<Event> {
    if events == [] || events[0].Format? then events else FromFirstFormat(events[1..])
  }

  // How many blocks at the front have no file to go to.
  function Headless(events: seq<Event>): (n: nat)
    ensures n <= |events|
  {
    if events == [] || events[0].Format? then 0 else 1 + Headless(events[1..])
  }

  // What precedes the first format is audio, so the blocks of the rest are all the
  // blocks but these.
  lemma {:induction false} HeadlessIsAudio(events: seq<Event>)
    ensures Headless(events) <= |AudioOf(events)|
    ensures AudioOf(FromFirstFormat(events)) == AudioOf(events)[Headless(events)..]
    ensures FromFirstFormat(events) == events[Headless(events)..]
  {
    if events != [] && events[0].Audio? {
      HeadlessIsAudio(events[1..]);
      assert events == [events[0]] + events[1..];
      AudioOfConcat([events[0]], events[1..]);
      assert [events[0]] == [] + [events[0]];
      AudioOfAppend([], events[0]);
      assert AudioOf([events[0]]) == [events[0].block];
    }
  }

  lemma {:induction false} FromFirstFormatAppend(events: seq<Event>, e: Event)
    ensures FromFirstFormat(events + [e])
         == if FromFirstFormat(events) == [] && e.Audio? then [] else FromFirstFormat(events) + [e]
  {
    if events == [] {
      assert events + [e] == [e];
    } else if events[0].Audio? {
      assert (events + [e])[1..] == events[1..] + [e];
      FromFirstFormatAppend(events[1..], e);
    }
  }

  lemma PartEventsGrow(part: Part, block: Block)
    ensures PartEvents(part.(blocks := part.blocks + [block])) == PartEvents(part) + [Audio(block)]
  {
    assert Init(part.blocks + [block]) == part.blocks;
  }

  lemma EventsInAppend(parts: seq<Part>, part: Part)
    ensures EventsIn(parts + [part]) == EventsIn(parts) + PartEvents(part)
  {
    assert Init(parts + [part]) == parts;
  }

  lemma EventsInBlock(hound: Encoder, parts: seq<Part>, block: Block)
    requires parts != []
    ensures EventsIn(AddBlock(hound, parts, block)) == EventsIn(parts) + [Audio(block)]
  {
    hide Full, EventsIn, PartEvents;
    var last := Last(parts);
    if Full(hound, last, block) {
      EventsInAppend(parts, Part(last.meta, [block], true));
      OneBlock(last.meta, block);
    } else {
      assert parts == Init(parts) + [last];
      EventsInAppend(Init(parts), last);
      EventsInAppend(Init(parts), last.(blocks := last.blocks + [block]));
      PartEventsGrow(last, block);
      assert EventsIn(Init(parts)) + (PartEvents(last) + [Audio(block)])
          == (EventsIn(Init(parts)) + PartEvents(last)) + [Audio(block)];
    }
  }

  lemma OneBlock(meta: AudioMetadata, block: Block)
    ensures PartEvents(Part(meta, [block], true)) == [Audio(block)]
  {
    assert Init([block]) == [] && AudioEvents([block]) == [] + [Audio(block)];
  }

  lemma EmptyPart(meta: AudioMetadata)
    ensures PartEvents(Part(meta, [], false)) == [Format(meta)]
  {
  }

  // Reading the parts back gives every event from the first format on, once and
  // in order.
  lemma {:induction false} PartsTell(hound: Encoder, events: seq<Event>)
    ensures EventsIn(PartsOf(hound, events)) == FromFirstFormat(events)
    ensures PartsOf(hound, events) == [] <==> FromFirstFormat(events) == []
  {
    hide AddBlock, Full, EventsIn, PartEvents, FromFirstFormat;
    if events == [] {
      NothingTold();
    } else {
      var parts, e := PartsOf(hound, Init(events)), Last(events);
      PartsTell(hound, Init(events));
      FromFirstFormatAppend(Init(events), e);
      assert events == Init(events) + [e];
      match e
      case Format(meta) =>
        EventsInAppend(parts, Part(meta, [], false));
        EmptyPart(meta);
      case Audio(block) =>
        AddBlockEmpty(hound, parts, block);
        if parts != [] { EventsInBlock(hound, parts, block); } else { NothingTold(); }
    }
  }

  lemma NothingTold()
    ensures EventsIn([]) == [] && FromFirstFormat([]) == []
  {
  }

  lemma AddBlockEmpty(hound: Encoder, parts: seq<Part>, block: Block)
    ensures AddBlock(hound, parts, block) == [] <==> parts == []
  {
  }

  // The parts tell the whole list exactly when it starts with a format.
  lemma PartsRoundTrip(hound: Encoder, events: seq<Event>)
    ensures EventsIn(PartsOf(hound, events)) == events <==> events == [] || events[0].Format?
  {
    PartsTell(hound, events);
    if events != [] && events[0].Audio? { FromFirstFormatShorter(events[1..]); }
  }

  lemma {:induction false} FromFirstFormatShorter(events: seq<Event>)
    ensures |FromFirstFormat(events)| <= |events|
  {
    if events != [] { FromFirstFormatShorter(events[1..]); }
  }

  // ----- rollovers -----

  // The part fits its RIFF size field, and if the limit opened it then the part
  // before it has the same format and had no room for its first block.
  predicate PartInPlace(hound: Encoder, parts: seq<Part>, k: nat)
    requires k < |parts|
  {
    && HeaderLen(hound, parts[k].meta) - 8 + |AudioBytes(parts[k].blocks)| <= U32_MAX
    && (parts[k].rolled ==>
          && 0 < k && parts[k].blocks != [] && parts[k - 1].meta == parts[k].meta
          && Full(hound, parts[k - 1], parts[k].blocks[0]))
  }

  predicate InPlace(hound: Encoder, parts: seq<Part>) {
    forall k :: 0 <= k < |parts| ==> PartInPlace(hound, parts, k)
  }

  lemma AddBlockInPlace(hound: Encoder, parts: seq<Part>, block: Block)
    requires Regular(hound) && InPlace(hound, parts)
    ensures InPlace(hound, AddBlock(hound, parts, block))
  {
    hide Template, AudioBytes, Interleaved;
    var after := AddBlock(hound, parts, block);
    if parts != [] {
      var last := Last(parts);
      LengthGrows(last.blocks, block);
      LengthGrows([], block);
      HeaderShort(hound, last.meta);
      assert [] + [block] == [block];
      forall k | 0 <= k < |after| ensures PartInPlace(hound, after, k) {
        if k < |parts| { assert PartInPlace(hound, parts, k); }
      }
    }
  }

  lemma LengthGrows(blocks: seq<Block>, block: Block)
    ensures |AudioBytes(blocks + [block])| == |AudioBytes(blocks)| + 4 * |block|
    ensures AudioBytes([]) == []
  {
    hide Interleaved;
    AudioBytesAppend(blocks, block);
  }

  lemma HeaderShort(hound: Encoder, meta: AudioMetadata)
    requires Regular(hound)
    ensures 8 <= HeaderLen(hound, meta) <= 0x1_0000
  {
    hide Template;
    if hound(meta).Some? { TemplateHead(hound(meta).value); }
  }

  // Every part of every session fits, and rolls over only when it must.
  lemma {:induction false} RolloverOnlyWhenFull(hound: Encoder, events: seq<Event>)
    requires Regular(hound)
    ensures InPlace(hound, PartsOf(hound, events))
  {
    hide Template, AddBlock, Full, AudioBytes;
    if events != [] {
      var parts := PartsOf(hound, Init(events));
      RolloverOnlyWhenFull(hound, Init(events));
      match Last(events)
      case Audio(block) => AddBlockInPlace(hound, parts, block);
      case Format(meta) => FormatInPlace(hound, parts, meta);
    }
  }

  lemma FormatInPlace(hound: Encoder, parts: seq<Part>, meta: AudioMetadata)
    requires Regular(hound) && InPlace(hound, parts)
    ensures InPlace(hound, parts + [Part(meta, [], false)])
  {
    hide Template, Interleaved;
    var after := parts + [Part(meta, [], false)];
    HeaderShort(hound, meta);
    forall k | 0 <= k < |after| ensures PartInPlace(hound, after, k) {
      if k < |parts| { assert PartInPlace(hound, parts, k); }
    }
  }

  // ----- the parts are determined -----

  // The parts before their last block was added.
  function WithoutLastBlock(parts: seq<Part>): seq<Part>
    requires parts != [] && Last(parts).blocks != []
  {
    var last := Last(parts);
    if last.rolled && |last.blocks| == 1 then Init(parts)
    else Init(parts) + [last.(blocks := Init(last.blocks))]
  }

  lemma BlockRemoved(hound: Encoder, parts: seq<Part>)
    requires InPlace(hound, parts) && parts != [] && Last(parts).blocks != []
    ensures var before := WithoutLastBlock(parts);
            before != [] && InPlace(hound, before) && parts == AddBlock(hound, before, Last(Last(parts).blocks))
  {
    hide Template, Interleaved, AudioBytes;
    var before, last := WithoutLastBlock(parts), Last(parts);
    var block := Last(last.blocks);
    assert PartInPlace(hound, parts, |parts| - 1);
    assert last.blocks == Init(last.blocks) + [block];
    LengthGrows(Init(last.blocks), block);
    forall k | 0 <= k < |before| ensures PartInPlace(hound, before, k) {
      assert PartInPlace(hound, parts, k);
    }
    assert parts == Init(parts) + [last];
    if last.rolled && |last.blocks| == 1 {
      assert last.blocks == [block];
    } else {
      assert Init(before) == Init(parts);
      assert last == Last(before).(blocks := Last(before).blocks + [block]);
    }
  }

  // Any parts that tell the events, fit, and roll over only when they must are
  // the parts the session writes.
  lemma {:induction false} PartsUnique(hound: Encoder, parts: seq<Part>)
    requires InPlace(hound, parts)
    ensures parts == PartsOf(hound, EventsIn(parts))
    decreases |parts|, if parts == [] then 0 else |Last(parts).blocks|
  {
    hide AddBlock, Full, AudioBytes, InPlace, EventsIn, PartEvents;
    if parts == [] {
      NothingTold();
    } else if Last(parts).blocks == [] {
      FormatRemoved(hound, parts);
      PartsUnique(hound, Init(parts));
      PartsOfAppend(hound, EventsIn(Init(parts)), Format(Last(parts).meta));
    } else {
      var before, block := WithoutLastBlock(parts), Last(Last(parts).blocks);
      BlockRemoved(hound, parts);
      PartsUnique(hound, before);
      EventsInBlock(hound, before, block);
      PartsOfAppend(hound, EventsIn(before), Audio(block));
    }
  }

  lemma FormatRemoved(hound: Encoder, parts: seq<Part>)
    requires InPlace(hound, parts) && parts != [] && Last(parts).blocks == []
    ensures InPlace(hound, Init(parts)) && parts == Init(parts) + [Part(Last(parts).meta, [], false)]
    ensures EventsIn(parts) == EventsIn(Init(parts)) + [Format(Last(parts).meta)]
  {
    hide Full, AudioBytes;
    assert PartInPlace(hound, parts, |parts| - 1);
    forall k | 0 <= k < |parts| - 1 ensures PartInPlace(hound, Init(parts), k) {
      assert PartInPlace(hound, parts, k);
    }
    EmptyPart(Last(parts).meta);
  }

  // ----- after a failure -----

  // What an interrupted event leaves tells the events before it, or that one too.
  lemma InterruptedTells(hound: Encoder, events: seq<Event>, e: Event, parts: seq<Part>)
    requires Interrupted(hound, PartsOf(hound, events), e, parts)
    ensures EventsIn(parts) == FromFirstFormat(events) || EventsIn(parts) == FromFirstFormat(events + [e])
  {
    hide PartsOf, AddEvent, EventsIn, FromFirstFormat, Full;
    PartsTell(hound, events);
    PartsTell(hound, events + [e]);
    PartsOfAppend(hound, events, e);
    var before := PartsOf(hound, events);
    if before != [] {
      EventsInAppend(before, Part(Last(before).meta, [], true));
      assert PartEvents(Part(Last(before).meta, [], true)) == [];
      assert EventsIn(before) + [] == EventsIn(before);
    }
  }
}
