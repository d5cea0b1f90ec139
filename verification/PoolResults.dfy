/**
 The pool transport against the single ring it replaces: what a session that
 ended without an error left on disk.
 */
module PoolResults {
  import opened Wrappers
  import opened Buffer
  import opened Io
  import WavHeader
  import WavWriter
  import opened Parts
  import Naming
  import opened Session
  import opened SessionResults
  import opened Pipeline
  import opened PipelineInvariants
  import opened PipelineTheorems
  import opened PipelineLosses
  import opened PipelineDrain
  import opened Transport
  import opened DiskWorker
  import opened InlineLoop

  // Confirmed events start with a format.
  lemma ConfirmedStartsWithFormat(p: Params, run: seq<Action>)
    requires p.Legal()
    ensures var confirmed := Exec(p, run).accepted; confirmed != [] ==> confirmed[0].Format?
  {
    hide Exec, Owning, RingsOrdered;
    RunKeeps(p, run);
  }

  // What a broken run wrote is too short to be what was confirmed.
  lemma BrokenIsShorter(p: Params, run: seq<Action>)
    requires p.Legal() && !CleanDiscards(p, run)
    ensures |Exec(p, run).written| < |Exec(p, run).accepted|
  {
    hide Exec, Sound;
    RunKeeps(p, run);
  }

  // The pool worker leaves the very parts the single-ring worker writes for the
  // confirmed events, if and only if no discard dropped a metadata whose barrier
  // was queued.
  lemma PoolMatchesInline(t: Transport, sess: Session)
    requires Ended(t, sess, Ok(()))
    ensures sess.parts == PartsOf(sess.hound, t.s.accepted) <==> CleanDiscards(t.p, t.run)
  {
    hide Exec, CleanDiscards, PartsOf, EventsIn, FromFirstFormat, Session.Consistent, Whole, Stored;
    DrainIsExact(t.p, t.run);
    if !CleanDiscards(t.p, t.run) {
      BrokenIsShorter(t.p, t.run);
      PartsTell(sess.hound, t.s.written);
      FromFirstFormatShorter(t.s.written);
      ConfirmedStartsWithFormat(t.p, t.run);
      PartsRoundTrip(sess.hound, t.s.accepted);
    }
  }

  // What a session that ended without an error leaves in any run, clean or not: of
  // the confirmed events some formats may be missing, of the confirmed blocks only
  // those written before any format. They are all there exactly if there are none.
  lemma OnlyHeadlessBlocksAreMissing(t: Transport, sess: Session)
    requires Ended(t, sess, Ok(()))
    ensures LessFormats(t.s.written, t.s.accepted) && EventsIn(sess.parts) == t.s.written[Headless(t.s.written)..]
    ensures var confirmed, n := AudioOf(t.s.accepted), Headless(t.s.written);
            && n <= |confirmed| && BlocksIn(sess.parts) == confirmed[n..]
            && (BlocksIn(sess.parts) == confirmed <==> t.s.written == [] || t.s.written[0].Format?)
    ensures CleanDiscards(t.p, t.run) ==> BlocksIn(sess.parts) == AudioOf(t.s.accepted)
    ensures SumBytes(sess.summary.segments) == |WavWriter.AudioBytes(BlocksIn(sess.parts))|
    ensures InPlace(sess.hound, sess.parts)
  {
    hide Exec, CleanDiscards, PartsOf, BlocksIn, SumBytes, Whole, Stored, AudioOf, LessFormats, Session.Consistent,
         InPlace;
    ExitIsIntegral(t.p, t.run);
    SessionHoldsAllAudio(sess, t.s.written);
    DrainIsExact(t.p, t.run);
    ConfirmedStartsWithFormat(t.p, t.run);
  }

  // With no overrun counted every block ever offered was confirmed, none was too
  // long to be offered, and with clean discards all of them are on disk, in order.
  lemma UnrefusedSessionIsLossless(t: Transport, sess: Session)
    requires Ended(t, sess, Ok(())) && t.overruns == 0
    ensures t.oversized == 0 && t.s.offered == AudioOf(t.s.accepted) == AudioOf(t.s.written)
    ensures BlocksIn(sess.parts) == t.s.offered <==> t.s.written == [] || t.s.written[0].Format?
    ensures CleanDiscards(t.p, t.run) ==> BlocksIn(sess.parts) == t.s.offered
    ensures t.slotLeaks == 0 && |t.free| == t.p.n
  {
    hide Exec, CleanDiscards, PartsOf, BlocksIn, SumBytes, Whole, Stored, AudioOf, LessFormats, Session.Consistent,
         InPlace, Headless;
    OnlyHeadlessBlocksAreMissing(t, sess);
    UnrefusedIsLossless(t.p, t.run);
    ExitIsIntegral(t.p, t.run);
  }

  // What a session that failed leaves: its parts tell what was written, and at most
  // the event in hand; the blocks of that event and of the work ring are all that is
  // missing of the confirmed ones.
  lemma FailureLosesTheQueue(t: Transport, sess: Session, e: IoError)
    requires Ended(t, sess, Err(e))
    ensures var written, unwritten := t.s.written, t.s.worker.unwritten;
            && (EventsIn(sess.parts) == FromFirstFormat(written)
                || EventsIn(sess.parts) == FromFirstFormat(written + unwritten))
            && AudioOf(written) + AudioOf(unwritten) + BlocksOf(t.work, t.s.slots) == AudioOf(t.s.accepted)
            && sess.Salvage()
  {
    hide Exec, PartsOf, EventsIn, FromFirstFormat, Interrupted, Session.Salvage, Stored, AudioOf, BlocksOf;
    BlocksAreConserved(t.p, t.run);
    PartsTell(sess.hound, t.s.written);
    var unwritten := t.s.worker.unwritten;
    assert Queue(t.s) == t.s.work;
    if |unwritten| == 1 && Interrupted(sess.hound, PartsOf(sess.hound, t.s.written), unwritten[0], sess.parts) {
      InterruptedTells(sess.hound, t.s.written, unwritten[0], sess.parts);
      assert unwritten == [unwritten[0]];
    }
  }

  // One image for one part: the encoder and the audio determine every byte.
  lemma ImageIsUnique(a: File, b: File, hound: Encoder, part: Part)
    requires FinishedFile(a, hound, part) && FinishedFile(b, hound, part)
    ensures a.durable == b.durable == a.data == b.data
  {
    hide WavWriter.AudioBytes, WavHeader.Header;
  }

  // The pool worker against the single-ring worker on the same confirmed events and
  // with the same encoder: the same parts exactly for clean discards, and then the
  // same files byte for byte.
  lemma FilesMatchInline(t: Transport, sess: Session, inline: Session, ring: seq<RingPayload>)
    requires Ended(t, sess, Ok(())) && Delivered(ring) == t.s.accepted && inline.hound == sess.hound
    requires inline.parts == PartsOf(inline.hound, Delivered(ring))
    requires Whole(inline.files, inline.hound, inline.parts)
    ensures sess.parts == inline.parts <==> CleanDiscards(t.p, t.run)
    ensures CleanDiscards(t.p, t.run) ==>
              && |sess.files| == |inline.files|
              && forall k :: 0 <= k < |sess.files| ==>
                   sess.files[k].durable == inline.files[k].durable == sess.files[k].data == inline.files[k].data
  {
    hide Exec, CleanDiscards, PartsOf, Delivered, FinishedFile, Session.Consistent, Stored;
    PoolMatchesInline(t, sess);
    if CleanDiscards(t.p, t.run) {
      forall k | 0 <= k < |sess.files|
        ensures sess.files[k].durable == inline.files[k].durable == sess.files[k].data == inline.files[k].data
      {
        ImageIsUnique(sess.files[k], inline.files[k], sess.hound, sess.parts[k]);
      }
    }
  }

  // A whole recording: a fresh transport and session, the worker, and a sender
  // that makes the scheduled calls and is then dropped. On success every quantum of a
  // schedule that never ends the stream itself was offered, or counted as too long.
  // The run is the schedule's batches, each followed by what the worker did after it.
  method RecordToEnd(p: Params, hound: Encoder, interval: AudioMetadata -> nat, dir: Naming.Directory,
                     schedule: seq<seq<SenderCall>>)
    returns (t: Transport, sess: Session, r: Result<(), IoError>, ghost turns: nat)
    requires p.Legal() && Regular(hound)
    modifies dir, dir.device
    ensures Preserved(old(dir.entries), dir.entries) && sess.baseline == old(dir.device.faults)
    ensures Ended(t, sess, r) && t.p == p && sess.hound == hound && sess.dir == dir
    ensures Alternates(p, [], t.run, Rounds(schedule, turns), false)
    ensures r.Ok? && AllRecording(schedule) ==>
              && t.s.offered == QuantaOf(Flat(schedule)) && t.oversized == TooLong(Flat(schedule))
              && (t.overruns == 0 && CleanDiscards(p, t.run) ==> BlocksIn(sess.parts) == QuantaOf(Flat(schedule)))
    ensures r.Ok? ==>
              && Whole(sess.files, hound, sess.parts)
              && (sess.parts == PartsOf(hound, t.s.accepted) <==> CleanDiscards(p, t.run))
  {
    hide Exec, CleanDiscards, PartsOf, Regular, Whole, Stored, Ended, Transport.Valid, Session.Valid, Linked, Heard,
         AllRecording, QuantaOf, TooLong, BlocksIn, NothingUndone, Alternates, Rounds;
    t := new Transport(p);
    sess := new Session(hound, interval, dir);
    StartsLinked(t, sess);
    ghost var here, disk := t.Here(), sess.OnDisk();
    ghost var heard;
    r, turns, heard := DiskWriterLoopPool(t, sess, schedule);
    EntriesStay(disk, sess.OnDisk());
    if r.Ok? {
      EndsExact(t, sess, r);
      if AllRecording(schedule) {
        ScheduleIsHeard(here, t.Here(), schedule, turns, heard);
        if t.overruns == 0 { UnrefusedSessionIsLossless(t, sess); }
      }
    }
  }

  lemma EntriesStay(before: Disk, after: Disk)
    requires NothingUndone(before, after)
    ensures Preserved(before.entries, after.entries)
  {
  }

  lemma StartsLinked(t: Transport, sess: Session)
    requires t.Valid() && t.Accounted() && t.s == Initial(t.p) && t.p.Legal() && sess.Valid() && sess.parts == []
    ensures Linked(t, sess) && t.s.worker == Polling && t.s.phase == Live && t.s.offered == []
  {
    hide Exec, Stored, Session.Valid;
  }

  lemma EndsExact(t: Transport, sess: Session, r: Result<(), IoError>)
    requires r.Ok? && Ended(t, sess, r)
    ensures Ended(t, sess, Ok(())) && t.s.phase != Live
    ensures Whole(sess.files, sess.hound, sess.parts)
    ensures sess.parts == PartsOf(sess.hound, t.s.accepted) <==> CleanDiscards(t.p, t.run)
  {
    hide Exec, CleanDiscards, PartsOf, Whole, Stored, Owning, Bookkeeping;
    RunKeeps(t.p, t.run);
    PoolMatchesInline(t, sess);
  }
}
