/**
 How barriers in the work ring name metadata in the control ring. The sequence
 numbers are 16 bits wide and wrap; what identifies a metadata is its distance
 back from the next number to be issued (serial arithmetic, RFC 1982 section 3.2).
 */
module Pairing {
  import opened Buffer
  import opened Pipeline

  // How far back from `next` the number `seqNo` was issued.
  function Dist(next: u16, seqNo: u16): u16 {
    Sub16(next, seqNo)
  }

  function Metas(control: seq<ControlPayload>): seq<AudioMetadata> {
    if control == [] then []
    else match control[0]
      case Metadata(_, meta) => [meta] + Metas(control[1..])
      case StreamStop => Metas(control[1..])
  }

  predicate StopFree(control: seq<ControlPayload>) {
    forall c <- control :: c.Metadata?
  }

  // The control ring holds consecutively numbered metadata, the last of them
  // one back from `next`, and a StreamStop only at its very end.
  predicate Consecutive(control: seq<ControlPayload>, next: u16) {
    control == [] ||
    match control[0]
    case Metadata(seqNo, _) =>
      Dist(next, seqNo) == |Metas(control)| && Consecutive(control[1..], next)
    case StreamStop => control[1..] == []
  }

  // The barriers of `queue` name metadata at strictly decreasing distances,
  // all within lo..hi.
  predicate Chain(queue: seq<Descriptor>, next: u16, hi: nat, lo: nat) {
    queue == [] ||
    if IsBarrier(queue[0]) then
      var d := Dist(next, queue[0].validLen);
      1 <= lo <= d <= hi && Chain(queue[1..], next, d - 1, lo)
    else
      Chain(queue[1..], next, hi, lo)
  }

  function DecodeOne(d: Descriptor, metas: seq<AudioMetadata>, next: u16, slots: seq<Block>): seq<Event> {
    if IsBarrier(d) then
      var back := Dist(next, d.validLen);
      if 1 <= back <= |metas| then [Format(metas[|metas| - back])] else []
    else if d.slot < |slots| then [Audio(slots[d.slot])]
    else []
  }

  // The events the two rings still carry, in the order of the work ring.
  function Decode(queue: seq<Descriptor>, metas: seq<AudioMetadata>, next: u16, slots: seq<Block>): seq<Event> {
    if queue == [] then []
    else DecodeOne(queue[0], metas, next, slots) + Decode(queue[1..], metas, next, slots)
  }

  // The slot indices the audio descriptors of `queue` hold.
  function SlotsOf(queue: seq<Descriptor>): (slots: seq<u16>)
    ensures |slots| <= |queue|
  {
    if queue == [] then []
    else if IsBarrier(queue[0]) then SlotsOf(queue[1..])
    else [queue[0].slot] + SlotsOf(queue[1..])
  }

  function BarrierCount(queue: seq<Descriptor>): nat {
    |queue| - |SlotsOf(queue)|
  }

  // ----- control ring -----

  lemma {:induction false} MetasAppend(control: seq<ControlPayload>, c: ControlPayload)
    ensures Metas(control + [c]) == if c.Metadata? then Metas(control) + [c.meta] else Metas(control)
  {
    if control != [] {
      MetasAppend(control[1..], c);
      assert (control + [c])[1..] == control[1..] + [c];
    }
  }

  lemma {:induction false} MetasLength(control: seq<ControlPayload>)
    ensures |Metas(control)| <= |control|
    ensures StopFree(control) ==> |Metas(control)| == |control|
  {
    if control != [] { MetasLength(control[1..]); }
  }

  lemma {:induction false} ConsecutiveAnnounce(control: seq<ControlPayload>, next: u16, meta: AudioMetadata)
    requires Consecutive(control, next) && StopFree(control) && |control| < 0x8000
    ensures Consecutive(control + [Metadata(next, meta)], Succ16(next))
  {
    MetasAppend(control, Metadata(next, meta));
    MetasLength(control);
    if control != [] {
      ConsecutiveAnnounce(control[1..], next, meta);
      assert (control + [Metadata(next, meta)])[1..] == control[1..] + [Metadata(next, meta)];
    }
  }

  lemma {:induction false} ConsecutiveStop(control: seq<ControlPayload>, next: u16)
    requires Consecutive(control, next) && StopFree(control)
    ensures Consecutive(control + [StreamStop], next)
  {
    MetasAppend(control, StreamStop);
    if control != [] {
      ConsecutiveStop(control[1..], next);
      assert (control + [StreamStop])[1..] == control[1..] + [StreamStop];
    }
  }

  // ----- chains of barriers -----

  lemma {:induction false} ChainAppendAudio(queue: seq<Descriptor>, next: u16, hi: nat, lo: nat, d: Descriptor)
    requires Chain(queue, next, hi, lo) && !IsBarrier(d)
    ensures Chain(queue + [d], next, hi, lo)
  {
    if queue != [] {
      assert (queue + [d])[1..] == queue[1..] + [d];
      ChainAppendAudio(queue[1..], next, if IsBarrier(queue[0]) then Dist(next, queue[0].validLen) - 1 else hi, lo, d);
    }
  }

  lemma {:induction false} ChainAppendBarrier(queue: seq<Descriptor>, next: u16, hi: nat, d: Descriptor)
    requires Chain(queue, next, hi, 2) && IsBarrier(d) && Dist(next, d.validLen) == 1 <= hi
    ensures Chain(queue + [d], next, hi, 1)
  {
    if queue != [] {
      assert (queue + [d])[1..] == queue[1..] + [d];
      ChainAppendBarrier(queue[1..], next, if IsBarrier(queue[0]) then Dist(next, queue[0].validLen) - 1 else hi, d);
    }
  }

  lemma {:induction false} ChainWeaken(queue: seq<Descriptor>, next: u16, hi: nat, hi': nat, lo: nat, lo': nat)
    requires Chain(queue, next, hi, lo) && hi <= hi' && 1 <= lo' <= lo
    ensures Chain(queue, next, hi', lo')
  {
    if queue != [] {
      if IsBarrier(queue[0]) {
        var d := Dist(next, queue[0].validLen);
        ChainWeaken(queue[1..], next, d - 1, d - 1, lo, lo');
      } else {
        ChainWeaken(queue[1..], next, hi, hi', lo, lo');
      }
    }
  }

  // Issuing one more number moves every queued barrier one further back.
  lemma {:induction false} ChainShift(queue: seq<Descriptor>, next: u16, hi: nat, lo: nat)
    requires Chain(queue, next, hi, lo) && hi + 1 < U16_SIZE
    ensures Chain(queue, Succ16(next), hi + 1, lo + 1)
  {
    if queue != [] {
      if IsBarrier(queue[0]) {
        var d := Dist(next, queue[0].validLen);
        assert Dist(Succ16(next), queue[0].validLen) == d + 1;
        ChainShift(queue[1..], next, d - 1, lo);
      } else {
        ChainShift(queue[1..], next, hi, lo);
      }
    }
  }

  // If no barrier names the furthest metadata, that metadata can go.
  lemma {:induction false} ChainTighten(queue: seq<Descriptor>, next: u16, hi: nat, lo: nat)
    requires Chain(queue, next, hi, lo) && hi >= 1
    requires forall d <- queue :: IsBarrier(d) ==> Dist(next, d.validLen) != hi
    ensures Chain(queue, next, hi - 1, lo)
  {
    if queue != [] && !IsBarrier(queue[0]) {
      ChainTighten(queue[1..], next, hi, lo);
    }
  }

  lemma {:induction false} ChainCount(queue: seq<Descriptor>, next: u16, hi: nat, lo: nat)
    requires Chain(queue, next, hi, lo) && lo >= 1
    ensures BarrierCount(queue) == 0 || BarrierCount(queue) + lo <= hi + 1
  {
    if queue != [] {
      if IsBarrier(queue[0]) {
        ChainCount(queue[1..], next, Dist(next, queue[0].validLen) - 1, lo);
      } else {
        ChainCount(queue[1..], next, hi, lo);
      }
    }
  }

  // ----- decoding -----

  lemma {:induction false} DecodeAppend(queue: seq<Descriptor>, d: Descriptor,
                                        metas: seq<AudioMetadata>, next: u16, slots: seq<Block>)
    ensures Decode(queue + [d], metas, next, slots)
         == Decode(queue, metas, next, slots) + DecodeOne(d, metas, next, slots)
  {
    if queue != [] {
      assert (queue + [d])[1..] == queue[1..] + [d];
      DecodeAppend(queue[1..], d, metas, next, slots);
    }
  }

  // Announcing one more format leaves the queued events as they are.
  lemma {:induction false} DecodeShift(queue: seq<Descriptor>, metas: seq<AudioMetadata>, next: u16,
                                       slots: seq<Block>, hi: nat, lo: nat, meta: AudioMetadata)
    requires Chain(queue, next, hi, lo) && hi <= |metas| && |metas| + 1 < U16_SIZE
    ensures Decode(queue, metas + [meta], Succ16(next), slots) == Decode(queue, metas, next, slots)
  {
    hide DecodeOne, Dist, Succ16;
    if queue != [] {
      var hi' := if IsBarrier(queue[0]) then Dist(next, queue[0].validLen) - 1 else hi;
      DecodeShift(queue[1..], metas, next, slots, hi', lo, meta);
      ShiftOne(queue[0], metas, next, slots, meta);
    }
  }

  lemma ShiftOne(d: Descriptor, metas: seq<AudioMetadata>, next: u16, slots: seq<Block>, meta: AudioMetadata)
    requires IsBarrier(d) ==> 1 <= Dist(next, d.validLen) <= |metas|
    requires |metas| + 1 < U16_SIZE
    ensures DecodeOne(d, metas + [meta], Succ16(next), slots) == DecodeOne(d, metas, next, slots)
  {
    if IsBarrier(d) {
      var back := Dist(next, d.validLen);
      assert Dist(Succ16(next), d.validLen) == back + 1;
      assert (metas + [meta])[|metas| - back] == metas[|metas| - back];
    }
  }

  // Dropping the oldest metadata leaves the events of nearer barriers as they are.
  lemma {:induction false} DecodeDrop(queue: seq<Descriptor>, metas: seq<AudioMetadata>, next: u16,
                                      slots: seq<Block>, hi: nat, lo: nat)
    requires Chain(queue, next, hi, lo) && hi < |metas|
    ensures Decode(queue, metas[1..], next, slots) == Decode(queue, metas, next, slots)
  {
    if queue != [] {
      var hi' := if IsBarrier(queue[0]) then Dist(next, queue[0].validLen) - 1 else hi;
      DecodeDrop(queue[1..], metas, next, slots, hi', lo);
      DropOne(queue[0], metas, next, slots);
    }
  }

  lemma DropOne(d: Descriptor, metas: seq<AudioMetadata>, next: u16, slots: seq<Block>)
    requires metas != []
    ensures !IsBarrier(d) || Dist(next, d.validLen) < |metas| ==>
              DecodeOne(d, metas[1..], next, slots) == DecodeOne(d, metas, next, slots)
  {
  }

  // Whatever the barriers name, dropping the oldest metadata never adds an event;
  // it removes one when some barrier names that metadata.
  lemma {:induction false} DecodeDropShrinks(queue: seq<Descriptor>, metas: seq<AudioMetadata>,
                                             next: u16, slots: seq<Block>)
    requires metas != []
    ensures |Decode(queue, metas[1..], next, slots)| <= |Decode(queue, metas, next, slots)|
    ensures (exists d <- queue :: IsBarrier(d) && Dist(next, d.validLen) == |metas|) ==>
              |Decode(queue, metas[1..], next, slots)| < |Decode(queue, metas, next, slots)|
  {
    if queue != [] { DecodeDropShrinks(queue[1..], metas, next, slots); }
  }

  // Refilling a slot no queued descriptor holds leaves the queued events as they are.
  lemma {:induction false} DecodeFrame(queue: seq<Descriptor>, metas: seq<AudioMetadata>, next: u16,
                                       slots: seq<Block>, idx: u16, block: Block)
    requires idx < |slots| && idx !in SlotsOf(queue)
    ensures Decode(queue, metas, next, slots[idx := block]) == Decode(queue, metas, next, slots)
  {
    if queue != [] { DecodeFrame(queue[1..], metas, next, slots, idx, block); }
  }

  lemma {:induction false} SlotsOfAppend(queue: seq<Descriptor>, d: Descriptor)
    ensures SlotsOf(queue + [d]) == if IsBarrier(d) then SlotsOf(queue) else SlotsOf(queue) + [d.slot]
  {
    if queue != [] {
      assert (queue + [d])[1..] == queue[1..] + [d];
      SlotsOfAppend(queue[1..], d);
    }
  }
}
