/**
 Positioned writes that may be short (src/recording/io.rs). A file is its
 volatile bytes and the image its last successful sync made durable.
 */
module Io {
  import opened Wrappers

  type byte = x: nat | x < 0x100

  datatype IoError = WriteZero | InvalidData | Backend | Malformed | Exhausted

  function Zeros(n: nat): (z: seq<byte>)
    ensures |z| == n
  {
    seq(n, _ => 0)
  }

  // `disk` reaching to `offset`: a gap reads as zeros.
  function Padded(disk: seq<byte>, offset: nat): (r: seq<byte>)
    ensures |r| >= offset && |r| >= |disk|
  {
    if |disk| < offset then disk + Zeros(offset - |disk|) else disk
  }

  // `disk` with `bytes` stored at `offset`.
  function Overwrite(disk: seq<byte>, offset: nat, bytes: seq<byte>): seq<byte> {
    if bytes == [] then disk
    else Splice(Padded(disk, offset), offset, bytes)
  }

  // `bytes` in place of what `padded` has from `offset` on.
  function Splice(padded: seq<byte>, offset: nat, bytes: seq<byte>): seq<byte>
    requires offset <= |padded|
  {
    padded[..offset] + bytes + (if offset + |bytes| < |padded| then padded[offset + |bytes|..] else [])
  }

  lemma OverwriteNothing(disk: seq<byte>, offset: nat)
    ensures Overwrite(disk, offset, []) == disk
  {
  }

  lemma OverwriteSplices(disk: seq<byte>, offset: nat, bytes: seq<byte>)
    requires bytes != []
    ensures Overwrite(disk, offset, bytes) == Splice(Padded(disk, offset), offset, bytes)
    ensures |Overwrite(disk, offset, bytes)| >= offset + |bytes|
  {
  }

  lemma OverwriteTwice(disk: seq<byte>, offset: nat, a: seq<byte>, b: seq<byte>)
    ensures Overwrite(Overwrite(disk, offset, a), offset + |a|, b) == Overwrite(disk, offset, a + b)
  {
    hide Overwrite, Splice, Padded;
    if a == [] {
      assert a + b == b;
      OverwriteNothing(disk, offset);
    } else if b == [] {
      assert a + b == a;
      OverwriteNothing(Overwrite(disk, offset, a), offset + |a|);
    } else {
      OverwriteSplices(disk, offset, a);
      OverwriteSplices(disk, offset, a + b);
      OverwriteSplices(Overwrite(disk, offset, a), offset + |a|, b);
      LongEnough(Overwrite(disk, offset, a), offset + |a|);
      SpliceTwice(Padded(disk, offset), offset, a, b);
    }
  }

  lemma LongEnough(disk: seq<byte>, offset: nat)
    requires |disk| >= offset
    ensures Padded(disk, offset) == disk
  {
  }

  lemma SpliceTwice(padded: seq<byte>, offset: nat, a: seq<byte>, b: seq<byte>)
    requires offset <= |padded|
    ensures Splice(Splice(padded, offset, a), offset + |a|, b) == Splice(padded, offset, a + b)
  {
    var head, once := padded[..offset] + a, Splice(padded, offset, a);
    assert once[..offset + |a|] == head;
    assert padded[..offset] + (a + b) == head + b;
  }

  // A write past the end leaves the bytes there were and reads as zeros up to its own.
  lemma OverwriteGap(disk: seq<byte>, offset: nat, bytes: seq<byte>)
    requires |disk| < offset && bytes != []
    ensures var after := Overwrite(disk, offset, bytes);
            && |after| == offset + |bytes| && disk <= after && after[offset..] == bytes
            && forall i :: |disk| <= i < offset ==> after[i] == 0
  {
  }

  // Inside the region the bytes are the ones written, outside it nothing moved.
  lemma OverwriteAt(disk: seq<byte>, offset: nat, bytes: seq<byte>)
    requires offset <= |disk|
    ensures var after := Overwrite(disk, offset, bytes);
            && |after| == (if offset + |bytes| > |disk| then offset + |bytes| else |disk|)
            && after[offset..offset + |bytes|] == bytes
            && after[..offset] == disk[..offset]
            && (offset + |bytes| <= |disk| ==> after[offset + |bytes|..] == disk[offset + |bytes|..])
  {
  }

  // What the backend answers from: `faults` counts every time it fails, stores
  // nothing or claims too much. The recorder never sees it.
  class Device {
    ghost var faults: nat

    constructor ()
      ensures faults == 0
    {
      faults := 0;
    }

    ghost method Answer(good: bool)
      modifies this
      ensures faults == old(faults) + if good then 0 else 1
    {
      if !good { faults := faults + 1; }
    }
  }

  class File {
    const device: Device
    var data: seq<byte>
    var durable: seq<byte>

    constructor (device: Device)
      ensures data == [] && durable == [] && this.device == device
    {
      this.device, data, durable := device, [], [];
    }

    // One submission. The backend decides: it may fail, store any prefix, or even
    // claim more bytes than it was given.
    method WriteAt(buf: seq<byte>, offset: nat) returns (r: Result<nat, IoError>)
      modifies this`data, device
      ensures device.faults == old(device.faults) + if r.Ok? && 0 < r.value <= |buf| then 0 else 1
      ensures r.Ok? ==> data == Overwrite(old(data), offset, if r.value <= |buf| then buf[..r.value] else buf)
      ensures r.Err? ==> r.error == Backend && data == old(data)
    {
      var ok: bool := *;
      if ok {
        var n: nat :| 0 <= n;
        data := Overwrite(data, offset, if n <= |buf| then buf[..n] else buf);
        device.Answer(0 < n <= |buf|);
        return Ok(n);
      }
      device.Answer(false);
      return Err(Backend);
    }

    method SyncAll() returns (r: Result<(), IoError>)
      modifies this`durable, device
      ensures device.faults == old(device.faults) + if r.Ok? then 0 else 1
      ensures durable == if r.Ok? then data else old(durable)
      ensures r.Err? ==> r.error == Backend
    {
      var ok: bool := *;
      if ok {
        durable := data;
        return Ok(());
      }
      device.Answer(false);
      return Err(Backend);
    }
  }

  // An operation failed, and the backend with it; or neither did.
  predicate Fails(failed: bool, before: nat, after: nat) {
    if failed then after > before else after == before
  }

  predicate IsFault(e: IoError) {
    e in {WriteZero, InvalidData, Backend}
  }

  // Loops over short writes until the buffer is stored or the backend gives up;
  // `rest` is what was not stored. It fails exactly when the backend does.
  method WriteAllAt(file: File, buffer: seq<byte>, at: nat) returns (r: Result<(), IoError>, rest: seq<byte>)
    modifies file`data, file.device
    ensures Fails(r.Err?, old(file.device.faults), file.device.faults)
    ensures r.Ok? <==> rest == []
    ensures r.Ok? ==> file.data == Overwrite(old(file.data), at, buffer)
    ensures r.Err? ==> IsFault(r.error)
    ensures r == Err(InvalidData) ==> file.data == Overwrite(old(file.data), at, buffer)
    ensures r.Err? && r.error != InvalidData ==>
              && |rest| <= |buffer| && buffer == buffer[..|buffer| - |rest|] + rest
              && file.data == Overwrite(old(file.data), at, buffer[..|buffer| - |rest|])
  {
    hide Overwrite;
    var buf, offset := buffer, at;
    assert buffer[..0] == [];
    OverwriteNothing(file.data, at);
    while buf != []
      invariant |buf| <= |buffer| && offset == at + (|buffer| - |buf|)
      invariant buf == buffer[|buffer| - |buf|..] && file.device.faults == old(file.device.faults)
      invariant file.data == Overwrite(old(file.data), at, buffer[..|buffer| - |buf|])
      decreases |buf|
    {
      ghost var done := |buffer| - |buf|;
      var res := file.WriteAt(buf, offset);
      match res
      case Err(e) =>
        return Err(e), buf;
      case Ok(written) =>
        if written == 0 {
          assert buf[..0] == [];
          OverwriteNothing(Overwrite(old(file.data), at, buffer[..done]), offset);
          return Err(WriteZero), buf;
        }
        ghost var stored := if written <= |buf| then buf[..written] else buf;
        OverwriteTwice(old(file.data), at, buffer[..done], stored);
        assert buffer[..done] + stored == buffer[..done + |stored|];
        if written > |buf| {
          assert buffer[..done + |stored|] == buffer;
          return Err(InvalidData), buf;
        }
        offset := offset + written;
        buf := buf[written..];
    }
    assert buffer[..|buffer|] == buffer;
    return Ok(()), buf;
  }
}
