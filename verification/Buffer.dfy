// Payload types shared by the two transports and the disk worker
// (src/recording/buffer.rs, src/recording/pool.rs).
module Buffer {
  const U16_SIZE: nat := 0x1_0000
  const U32_MAX: nat := 0xFFFF_FFFF

  type u16 = x: nat | x < 0x1_0000
  type u32 = x: nat | x < 0x1_0000_0000

  const MAX_BLOCK_SIZE: nat := 16384
  const CONTROL_CAPACITY: nat := 4
  const POOL_CAPACITY: nat := 256

  // An f32 sample is an opaque 32-bit word: the recorder only ever moves it.
  type Sample = u32

  datatype AudioMetadata = AudioMetadata(sampleRate: nat, bitDepth: u16, channels: u16)

  // The valid planar region of a block: the left plane followed by the right one.
  type Block = s: seq<Sample> | |s| <= MAX_BLOCK_SIZE && |s| % 2 == 0

  // What the producer confirmed, in its own order: a format change or a block.
  datatype Event = Format(meta: AudioMetadata) | Audio(block: Block)

  // The blocks among `events`, in order.
  function AudioOf(events: seq<Event>): seq<Block> {
    if events == [] then []
    else
      var earlier := AudioOf(events[..|events| - 1]);
      match events[|events| - 1]
      case Format(_) => earlier
      case Audio(block) => earlier + [block]
  }

  lemma AudioOfAppend(events: seq<Event>, e: Event)
    ensures AudioOf(events + [e]) == AudioOf(events) + (if e.Audio? then [e.block] else [])
  {
    assert (events + [e])[..|events|] == events;
  }

  lemma {:induction false} AudioOfConcat(a: seq<Event>, b: seq<Event>)
    ensures AudioOf(a + b) == AudioOf(a) + AudioOf(b)
  {
    hide AudioOf;
    if b == [] {
      AudioOfNothing();
      assert a + b == a && AudioOf(a) + [] == AudioOf(a);
    } else {
      var init, last := b[..|b| - 1], b[|b| - 1];
      AudioOfConcat(a, init);
      assert a + b == (a + init) + [last] && b == init + [last];
      AudioOfAppend(a + init, last);
      AudioOfAppend(init, last);
      var more := if last.Audio? then [last.block] else [];
      assert (AudioOf(a) + AudioOf(init)) + more == AudioOf(a) + (AudioOf(init) + more);
    }
  }

  lemma AudioOfNothing()
    ensures AudioOf([]) == []
  {
  }
}
