/**
 The single-ring worker loop, the reference the pool transport replaces
 (src/recording/disk.rs:891-985).
 */
module InlineLoop {
  import opened Wrappers
  import opened Buffer
  import opened Blocks
  import opened Io
  import opened Parts
  import opened Session

  datatype RingPayload = Payload(event: Event) | StreamStop

  // What the ring delivers before its stop token, or before its producer is gone.
  function Delivered(ring: seq<RingPayload>): seq<Event> {
    if ring == [] || ring[0].StreamStop? then [] else [ring[0].event] + Delivered(ring[1..])
  }

  // It is every payload before the first stop token, and all of them without one.
  lemma {:induction false} DeliveredExactly(ring: seq<RingPayload>)
    ensures var events := Delivered(ring);
            && |events| <= |ring| && (forall i :: 0 <= i < |events| ==> ring[i] == Payload(events[i]))
            && (|events| < |ring| ==> ring[|events|].StreamStop?)
  {
    if ring != [] && ring[0].Payload? {
      DeliveredExactly(ring[1..]);
      var events := Delivered(ring);
      forall i | 0 <= i < |events| ensures ring[i] == Payload(events[i]) {
        if i > 0 { assert ring[i] == ring[1..][i - 1]; }
      }
    }
  }

  lemma DeliveredFrom(ring: seq<RingPayload>, i: nat, done: seq<Event>)
    requires i < |ring| && ring[i].Payload? && done + Delivered(ring[i..]) == Delivered(ring)
    ensures done + [ring[i].event] + Delivered(ring[i + 1..]) == Delivered(ring)
    ensures done < Delivered(ring) && Delivered(ring)[|done|] == ring[i].event
  {
    assert ring[i..][1..] == ring[i + 1..];
    assert done + ([ring[i].event] + Delivered(ring[i + 1..])) == done + [ring[i].event] + Delivered(ring[i + 1..]);
  }

  // One payload of the stream. A failure leaves it undone, done, or at its rollover,
  // and has its reason in the backend, the encoder or the directory.
  method Consume(sess: Session, event: Event) returns (r: Result<(), IoError>)
    requires sess.Valid()
    modifies sess.Footprint()
    ensures fresh(sess.Footprint() - old(sess.Footprint()))
    ensures NothingUndone(old(sess.OnDisk()), sess.OnDisk()) && sess.Salvage()
    ensures r.Ok? ==> sess.Valid() && sess.parts == AddEvent(sess.hound, old(sess.parts), event)
    ensures r.Err? ==> Interrupted(sess.hound, old(sess.parts), event, sess.parts)
    ensures r.Ok? ==> !RefusedEvent(sess.hound, event)
    ensures r.Err? ==> sess.Justified(r.error, RefusedEvent(sess.hound, event))
  {
    hide AddBlock, Session.Valid, Session.Consistent, Session.Salvage, NothingUndone;
    if event.Format? {
      r := sess.OpenNewPart(event.meta, false);
    } else {
      var block := new AlignedBlock.Holding(event.block);
      r := sess.WriteBlockWithOverflowRollover(block);
    }
  }

  // The parts of a session that failed: those of some first events, and what the
  // failure left of the next one.
  predicate StoppedAt(hound: Encoder, parts: seq<Part>, events: seq<Event>, done: seq<Event>) {
    && done <= events
    && (parts == PartsOf(hound, done)
        || (done < events && Interrupted(hound, PartsOf(hound, done), events[|done|], parts)))
  }

  // `ring` is everything the producer pushes before it is dropped; waiting for
  // the next payload changes nothing.
  method DiskWriterLoopInline(sess: Session, ring: seq<RingPayload>)
    returns (r: Result<(), IoError>, ghost done: seq<Event>)
    requires sess.Valid() && sess.parts == []
    modifies sess.Footprint()
    ensures NothingUndone(old(sess.OnDisk()), sess.OnDisk()) && sess.Salvage()
    ensures r.Ok? ==>
              && sess.Consistent() && sess.parts == PartsOf(sess.hound, Delivered(ring))
              && Whole(sess.files, sess.hound, sess.parts)
    ensures r.Err? ==> StoppedAt(sess.hound, sess.parts, Delivered(ring), done)
    ensures r.Err? ==> sess.Justified(r.error, done < Delivered(ring)
                                               && RefusedEvent(sess.hound, Delivered(ring)[|done|]))
  {
    hide PartsOf, AddEvent, Interrupted, Session.Valid, Session.Consistent, Session.Salvage, Delivered, NothingUndone;
    var i := 0;
    done := [];
    Start(sess, ring);
    while i < |ring| && ring[i].Payload?
      invariant 0 <= i <= |ring| && done + Delivered(ring[i..]) == Delivered(ring)
      invariant sess.Valid() && sess.parts == PartsOf(sess.hound, done)
      invariant NothingUndone(old(sess.OnDisk()), sess.OnDisk())
      invariant fresh(sess.Footprint() - old(sess.Footprint()))
    {
      ghost var disk := sess.OnDisk();
      var event := ring[i].event;
      DeliveredFrom(ring, i, done);
      r := Consume(sess, event);
      UndoneTwice(old(sess.OnDisk()), disk, sess.OnDisk());
      if r.Err? { return; }
      PartsOfAppend(sess.hound, done, event);
      done := done + [event];
      i := i + 1;
    }
    NothingMore(ring, i);
    assert done + [] == done;
    ghost var disk := sess.OnDisk();
    r := sess.CloseWriter();
    UndoneTwice(old(sess.OnDisk()), disk, sess.OnDisk());
  }

  lemma Start(sess: Session, ring: seq<RingPayload>)
    ensures [] + Delivered(ring[0..]) == Delivered(ring) && PartsOf(sess.hound, []) == []
    ensures NothingUndone(sess.OnDisk(), sess.OnDisk())
  {
    assert ring[0..] == ring;
  }

  lemma NothingMore(ring: seq<RingPayload>, i: nat)
    requires i <= |ring| && (i < |ring| ==> ring[i].StreamStop?)
    ensures Delivered(ring[i..]) == []
  {
  }
}
