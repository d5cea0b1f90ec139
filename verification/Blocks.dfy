/**
 A preallocated audio block, filled in place (src/recording/buffer.rs:60-189):
 the left plane, then the right plane, then samples nobody may read.
 */
module Blocks {
  import opened Buffer

  function Min(a: nat, b: nat): nat {
    if a <= b then a else b
  }

  // Frames a block of `size` samples takes from the two channels.
  function FramesTaken(left: seq<Sample>, right: seq<Sample>, size: nat): (n: nat)
    ensures n <= |left| && n <= |right| && 2 * n <= size
    ensures n == |left| || n == |right| || size < 2 * n + 2
  {
    Min(Min(|left|, |right|), size / 2)
  }

  // Copies `src` into the slots from `at` on.
  method WriteCopyOfSlice(data: array<Sample>, at: nat, src: seq<Sample>)
    requires at + |src| <= data.Length
    modifies data
    ensures data[..] == old(data[..])[..at] + src + old(data[..])[at + |src|..]
  {
    for i := 0 to |src|
      invariant forall k :: 0 <= k < data.Length ==>
                  data[k] == if at <= k < at + i then src[k - at] else old(data[k])
    {
      data[at + i] := src[i];
    }
  }

  class AlignedBlock {
    const data: array<Sample>
    var validLen: nat

    ghost predicate Valid()
      reads this
    {
      data.Length <= MAX_BLOCK_SIZE && validLen <= data.Length && validLen % 2 == 0
    }

    // The samples are whatever the memory holds.
    constructor Uninit(size: nat)
      requires size <= MAX_BLOCK_SIZE
      ensures Valid() && fresh(data) && data.Length == size && AsSlice() == []
    {
      data := new Sample[size];
      validLen := 0;
    }

    // A block moved out of the inline ring.
    constructor Holding(samples: Block)
      ensures Valid() && fresh(data) && AsSlice() == samples
    {
      data := new Sample[|samples|](i requires 0 <= i < |samples| => samples[i]);
      validLen := |samples|;
      new;
      assert data[..] == samples;
    }

    function AsSlice(): Block
      requires Valid()
      reads this, data
    {
      data[..validLen]
    }

    function Frames(): nat
      reads this
    {
      validLen / 2
    }

    function LeftSlice(): seq<Sample>
      requires Valid()
      reads this, data
    {
      data[..Frames()]
    }

    function RightSlice(): seq<Sample>
      requires Valid()
      reads this, data
    {
      data[Frames()..2 * Frames()]
    }

    // The valid region is the two views side by side.
    lemma PlanesMeet()
      requires Valid()
      ensures AsSlice() == LeftSlice() + RightSlice() && |LeftSlice()| == |RightSlice()| == Frames()
    {
      assert data[..validLen] == data[..Frames()] + data[Frames()..validLen];
    }

    // Copies as many frames as both channels and the block have: the views then
    // show exactly those frames, and nothing behind them moved.
    method FillPlanar(left: seq<Sample>, right: seq<Sample>) returns (len: nat)
      requires Valid()
      modifies this`validLen, data
      ensures Valid() && len == validLen == 2 * FramesTaken(left, right, data.Length)
      ensures LeftSlice() == left[..Frames()] && RightSlice() == right[..Frames()]
      ensures data[..] == AsSlice() + old(data[..])[validLen..]
    {
      hide FramesTaken;
      var n := FramesTaken(left, right, data.Length);
      ghost var was := data[..];
      WriteCopyOfSlice(data, 0, left[..n]);
      WriteCopyOfSlice(data, n, right[..n]);
      assert data[..] == left[..n] + right[..n] + was[n + n..];
      validLen := n + n;
      PlanesMeet();
      len := validLen;
    }
  }
}
