/**
 The pool worker's loop (src/recording/disk.rs:705-881). Between its atomic steps
 the sender makes whatever calls `schedule` lists; once the list is used up the
 sender is dropped, so every schedule is a complete session.
 */
module DiskWorker {
  import opened Wrappers
  import opened Buffer
  import opened Io
  import WavWriter
  import opened Parts
  import opened Session
  import opened Pipeline
  import opened PipelineDrain
  import opened Transport

  datatype Call =
    | Quantum(left: seq<Sample>, right: seq<Sample>)
    | Announcement(meta: AudioMetadata)
    | Stop
    | HangUp

  // The two channels of a quantum are of one length.
  type SenderCall = c: Call | c.Quantum? ==> |c.left| == |c.right| witness Stop

  // ----- the sender's turn -----

  ghost predicate Rested(t: Transport)
    reads t, t.Store()
  {
    t.Valid() && t.Accounted() && t.s.sender == Idle
  }

  // The steps a call amounts to: once the sender has stopped only the drop counts.
  function CallSteps(p: Params, s: State, call: SenderCall): seq<Action> {
    match call
    case Quantum(left, right) =>
      if s.phase == Live && Fits(left) then AudioSteps(s, WholeBlock(left, right)) else []
    case Announcement(meta) => if s.phase == Live then FormatSteps(p, s, meta) else []
    case Stop => if s.phase == Live then [PushStop] else []
    case HangUp => if s.phase != Dropped then [DropSender] else []
  }

  // ----- what the sender offers -----

  // The whole block of every quantum that fits one, in order.
  function QuantaOf(calls: seq<SenderCall>): seq<Block> {
    if calls == [] then []
    else
      var last := calls[|calls| - 1];
      QuantaOf(calls[..|calls| - 1])
      + if last.Quantum? && Fits(last.left) then [WholeBlock(last.left, last.right)] else []
  }

  // How many quanta are too long for a block.
  function TooLong(calls: seq<SenderCall>): nat {
    if calls == [] then 0
    else
      var last := calls[|calls| - 1];
      TooLong(calls[..|calls| - 1]) + if last.Quantum? && last.left != [] && !Fits(last.left) then 1 else 0
  }

  predicate EndsStream(call: SenderCall) {
    call.Stop? || call.HangUp?
  }

  // Of the calls made from one point to another the first `heard` came while the
  // stream was live: their quanta were offered, or counted as too long, and the last
  // of them ended the stream if it ended.
  predicate Heard(before: Point, after: Point, calls: seq<SenderCall>, heard: nat) {
    && heard <= |calls|
    && after.s.offered == before.s.offered + QuantaOf(calls[..heard])
    && after.oversized == before.oversized + TooLong(calls[..heard])
    && (before.s.phase != Live ==> heard == 0 && after.s.phase != Live)
    && (after.s.phase == Live ==> heard == |calls|)
    && (before.s.phase == Live && after.s.phase != Live ==> heard > 0 && EndsStream(calls[heard - 1]))
  }

  lemma {:induction false} QuantaConcat(a: seq<SenderCall>, b: seq<SenderCall>)
    ensures QuantaOf(a + b) == QuantaOf(a) + QuantaOf(b) && TooLong(a + b) == TooLong(a) + TooLong(b)
  {
    if b == [] {
      assert a + b == a;
    } else {
      QuantaConcat(a, b[..|b| - 1]);
      assert (a + b)[..|a + b| - 1] == a + b[..|b| - 1];
    }
  }

  lemma NoQuanta()
    ensures QuantaOf([]) == [] && TooLong([]) == 0
  {
  }

  lemma HeardTwice(a: Point, b: Point, c: Point, calls: seq<SenderCall>, heard: nat,
                   more: seq<SenderCall>, heardMore: nat)
    requires Heard(a, b, calls, heard) && Heard(b, c, more, heardMore)
    ensures Heard(a, c, calls + more, if b.s.phase == Live then |calls| + heardMore else heard)
  {
    hide QuantaOf, TooLong;
    NoQuanta();
    if b.s.phase == Live {
      assert calls[..heard] == calls && (calls + more)[..|calls| + heardMore] == calls + more[..heardMore];
      QuantaConcat(calls, more[..heardMore]);
      assert (a.s.offered + QuantaOf(calls)) + QuantaOf(more[..heardMore])
          == a.s.offered + (QuantaOf(calls) + QuantaOf(more[..heardMore]));
    } else {
      assert (calls + more)[..heard] == calls[..heard] && more[..0] == [];
    }
  }

  // The worker's steps say nothing.
  lemma HeardWork(a: Point, b: Point)
    requires Onward(a, b)
    ensures Heard(a, b, [], 0)
  {
    hide QuantaOf, TooLong;
    NoQuanta();
    var none: seq<SenderCall> := [];
    assert none[..0] == none;
  }

  // One call, from before it to after it.
  predicate HeardOne(before: Point, after: Point, call: SenderCall) {
    var live := before.s.phase == Live;
    && after.s.offered == before.s.offered
       + (if live && call.Quantum? && Fits(call.left) then [WholeBlock(call.left, call.right)] else [])
    && after.oversized == before.oversized
       + (if live && call.Quantum? && call.left != [] && !Fits(call.left) then 1 else 0)
    && (!live ==> after.s.phase != Live)
    && (live && after.s.phase != Live ==> EndsStream(call))
  }

  lemma OneIsHeard(before: Point, after: Point, call: SenderCall)
    requires HeardOne(before, after, call)
    ensures Heard(before, after, [call], if before.s.phase == Live then 1 else 0)
  {
    hide Fits, WholeBlock;
    NoQuanta();
    assert [call][..0] == [] && [call][..1] == [call] && [call][..|[call]| - 1] == [];
    var one := if call.Quantum? && Fits(call.left) then [WholeBlock(call.left, call.right)] else [];
    assert QuantaOf([call]) == [] + one == one;
  }

  method MakeCall(t: Transport, call: SenderCall)
    requires Rested(t)
    modifies t, t.Store()
    ensures Rested(t) && SenderOnly(old(t.s), t.s)
    ensures t.run == old(t.run) + CallSteps(t.p, old(t.s), call)
    ensures old(t.abandoned) || call == HangUp ==> t.abandoned
    ensures call.Quantum? || call.Announcement? ==> t.s.phase == old(t.s.phase)
    ensures HeardOne(old(t.Here()), t.Here(), call)
  {
    hide Transport.Valid, AudioSteps, FormatSteps, Fits, WholeBlock;
    var live := !t.stopSent && !t.abandoned;
    PhaseFlags(t);
    if call.Quantum? && live {
      t.SendAudio(call.left, call.right);
      FitsHasFrames(call.left);
    } else if call.Announcement? && live {
      t.SendMetadata(call.meta);
    } else if call.Stop? && live {
      var _ := t.TryPushStreamStop();
    } else if call.HangUp? && !t.abandoned {
      t.Drop();
    }
    PhaseFlags(t);
  }

  lemma FitsHasFrames(left: seq<Sample>)
    ensures Fits(left) ==> left != []
  {
  }

  // The run after a batch of calls made one after the other.
  ghost function AfterCalls(p: Params, run: seq<Action>, calls: seq<SenderCall>): seq<Action>
    requires p.Legal()
  {
    if calls == [] then run
    else
      var earlier := AfterCalls(p, run, calls[..|calls| - 1]);
      earlier + CallSteps(p, Exec(p, earlier), calls[|calls| - 1])
  }

  lemma PhaseFlags(t: Transport)
    requires t.Valid()
    ensures t.abandoned <==> t.s.phase == Dropped
    ensures t.s.phase == Live <==> !t.stopSent && !t.abandoned
    ensures t.work == t.s.work && t.control == t.s.control
  {
    hide Exec, Stored;
  }

  // A batch of calls, and how many steps at least the worker takes after it.
  datatype Round = Round(calls: seq<SenderCall>, steps: nat)

  // The batch was made whole and in order, and then the worker took its steps; one
  // that ended may have taken fewer.
  ghost predicate RoundTaken(p: Params, before: seq<Action>, after: seq<Action>, round: Round, ended: bool)
    requires p.Legal()
  {
    var said := AfterCalls(p, before, round.calls);
    && said <= after && WorkOnly(after[|said|..])
    && (ended || |said| + round.steps <= |after|)
  }

  // The run is these rounds, one after the other.
  ghost predicate Alternates(p: Params, before: seq<Action>, after: seq<Action>, rounds: seq<Round>, ended: bool)
    requires p.Legal()
    decreases |rounds|
  {
    if rounds == [] then after == before
    else
      var init, last := rounds[..|rounds| - 1], rounds[|rounds| - 1];
      exists mid :: Alternates(p, before, mid, init, ended) && RoundTaken(p, mid, after, last, ended)
  }

  lemma RoundEnds(p: Params, before: seq<Action>, after: seq<Action>, round: Round)
    requires p.Legal()
    ensures RoundTaken(p, before, after, round, false) ==> RoundTaken(p, before, after, round, true)
  {
  }

  lemma {:induction false} AlternatesEnds(p: Params, before: seq<Action>, after: seq<Action>, rounds: seq<Round>)
    requires p.Legal() && Alternates(p, before, after, rounds, false)
    ensures Alternates(p, before, after, rounds, true)
    decreases |rounds|
  {
    if rounds != [] {
      var init, last := rounds[..|rounds| - 1], rounds[|rounds| - 1];
      var mid :| Alternates(p, before, mid, init, false) && RoundTaken(p, mid, after, last, false);
      AlternatesEnds(p, before, mid, init);
      RoundEnds(p, mid, after, last);
    }
  }

  lemma OneMoreRound(p: Params, a: seq<Action>, b: seq<Action>, c: seq<Action>, rounds: seq<Round>, round: Round,
                     earlier: bool, ended: bool)
    requires p.Legal() && Alternates(p, a, b, rounds, earlier) && RoundTaken(p, b, c, round, ended)
    requires earlier ==> ended
    ensures Alternates(p, a, c, rounds + [round], ended)
  {
    hide RoundTaken;
    if ended && !earlier {
      AlternatesEnds(p, a, b, rounds);
      RoundEnds(p, b, c, round);
    }
    var all := rounds + [round];
    assert all[..|all| - 1] == rounds && all[|all| - 1] == round;
    assert Alternates(p, a, b, all[..|all| - 1], ended) && RoundTaken(p, b, c, all[|all| - 1], ended);
  }

  // The calls the sender makes before the worker's next step: the next batch, or
  // the drop once the schedule is used up.
  function TurnCalls(schedule: seq<seq<SenderCall>>, turn: nat): seq<SenderCall> {
    if turn < |schedule| then schedule[turn] else [HangUp]
  }

  // The calls of the turns from `turn` on, before `next`.
  function CallsBetween(schedule: seq<seq<SenderCall>>, turn: nat, next: nat): seq<SenderCall>
    decreases next
  {
    if next <= turn then [] else CallsBetween(schedule, turn, next - 1) + TurnCalls(schedule, next - 1)
  }

  lemma {:induction false} CallsOnward(schedule: seq<seq<SenderCall>>, a: nat, b: nat, c: nat)
    requires a <= b <= c
    ensures CallsBetween(schedule, a, c) == CallsBetween(schedule, a, b) + CallsBetween(schedule, b, c)
    decreases c
  {
    if b < c { CallsOnward(schedule, a, b, c - 1); }
  }

  method SenderTurn(t: Transport, schedule: seq<seq<SenderCall>>, turn: nat) returns (ghost heard: nat)
    requires Rested(t)
    modifies t, t.Store()
    ensures Rested(t) && SenderOnly(old(t.s), t.s)
    ensures t.p.Legal() && t.run == AfterCalls(t.p, old(t.run), TurnCalls(schedule, turn))
    ensures Heard(old(t.Here()), t.Here(), TurnCalls(schedule, turn), heard)
    ensures TurnsLeft(t.abandoned, schedule, turn + 1) < TurnsLeft(old(t.abandoned), schedule, turn)
            || (t.abandoned && turn >= |schedule| && t.s == old(t.s))
  {
    hide Rested, CallSteps, Exec, Heard, HeardOne;
    var calls := TurnCalls(schedule, turn);
    RestedReaches(t);
    heard := 0;
    NothingHeard(t.Here());
    for i := 0 to |calls|
      invariant Rested(t) && SenderOnly(old(t.s), t.s) && (old(t.abandoned) ==> t.abandoned)
      invariant i > 0 && calls == [HangUp] ==> t.abandoned
      invariant t.p.Legal() && t.run == AfterCalls(t.p, old(t.run), calls[..i])
      invariant Heard(old(t.Here()), t.Here(), calls[..i], heard)
      invariant calls == [HangUp] && old(t.abandoned) ==> t.s == old(t.s)
    {
      RestedReaches(t);
      DroppedStays(t, calls[i]);
      ghost var here := t.Here();
      MakeCall(t, calls[i]);
      RestedReaches(t);
      OneIsHeard(here, t.Here(), calls[i]);
      HeardTwice(old(t.Here()), here, t.Here(), calls[..i], heard, [calls[i]], if here.s.phase == Live then 1 else 0);
      heard := if here.s.phase == Live then i + 1 else heard;
      assert calls[..i + 1] == calls[..i] + [calls[i]] && calls[..i + 1][..i] == calls[..i];
    }
    assert calls[..|calls|] == calls;
  }

  lemma NothingHeard(here: Point)
    ensures Heard(here, here, [], 0)
  {
    var none: seq<SenderCall> := [];
    assert none[..0] == none;
  }

  lemma DroppedStays(t: Transport, call: SenderCall)
    requires Rested(t)
    ensures t.abandoned && call == HangUp ==> CallSteps(t.p, t.s, call) == [] && t.run + [] == t.run
  {
    hide Transport.Valid;
    PhaseFlags(t);
  }

  lemma RestedReaches(t: Transport)
    requires Rested(t)
    ensures t.p.Legal() && t.s == Exec(t.p, t.run)
  {
    hide Exec, Stored;
  }

  function TurnsLeft(abandoned: bool, schedule: seq<seq<SenderCall>>, turn: nat): nat {
    (if turn < |schedule| then |schedule| - turn else 0) + if abandoned then 0 else 1
  }

  // ----- the worker's turn -----

  ghost function Region(sess: Session): set<object>
    reads sess
  {
    sess.Footprint() + set f | f in sess.files :: f as object
  }

  // The transport and the session share no object.
  lemma Separate(t: Transport, sess: Session)
    ensures ({t} + t.Store()) !! Region(sess)
  {
  }

  // The session wrote what the step system counts as written.
  ghost predicate Linked(t: Transport, sess: Session)
    reads t, t.Store(), sess, sess.dir, sess.dir.device, sess.summary, sess.files, sess.writer
  {
    && Rested(t) && sess.Valid()
    && sess.parts == PartsOf(sess.hound, t.s.written)
  }

  // What the parts hold when the worker failed: all that was written, and whatever
  // the failure left of the event in hand.
  predicate Halted(hound: Encoder, parts: seq<Part>, written: seq<Event>, unwritten: seq<Event>) {
    || parts == PartsOf(hound, written)
    || (|unwritten| == 1 && Interrupted(hound, PartsOf(hound, written), unwritten[0], parts))
  }

  // The format in hand is one the encoder refuses.
  predicate RefusedInHand(hound: Encoder, unwritten: seq<Event>) {
    |unwritten| == 1 && RefusedEvent(hound, unwritten[0])
  }

  // The session is over: every file is finished and holds what was written, or the
  // worker failed for a reason and everything synced before is still there.
  ghost predicate Ended(t: Transport, sess: Session, r: Result<(), IoError>)
    reads t, t.Store(), sess, sess.dir, sess.dir.device, sess.summary, sess.files
  {
    && Rested(t)
    && (if r.Ok? then
          && t.s.worker == Done && sess.Consistent() && Whole(sess.files, sess.hound, sess.parts)
          && sess.parts == PartsOf(sess.hound, t.s.written)
        else
          && t.s.worker.Failed? && sess.Salvage()
          && Halted(sess.hound, sess.parts, t.s.written, t.s.worker.unwritten)
          && sess.Justified(r.error, RefusedInHand(sess.hound, t.s.worker.unwritten)))
  }

  lemma FormatInHand(hound: Encoder, meta: AudioMetadata, block: Block)
    ensures RefusedInHand(hound, [Format(meta)]) == WavWriter.Refused(hound(meta), meta)
    ensures !RefusedInHand(hound, [Audio(block)])
  {
  }

  // The session has handled the event in hand, or failed on it; the step system has
  // yet to be told.
  ghost predicate Acted(t: Transport, sess: Session, e: Event, r: Result<(), IoError>)
    reads t, t.Store(), sess, sess.dir, sess.dir.device, sess.summary, sess.files, sess.writer
  {
    && Rested(t)
    && (if r.Ok? then sess.Valid() && sess.parts == PartsOf(sess.hound, t.s.written + [e])
        else
          && sess.Salvage() && Halted(sess.hound, sess.parts, t.s.written, [e])
          && sess.Justified(r.error, RefusedInHand(sess.hound, [e])))
  }

  // The session's half of opening a part.
  method OpenPart(t: Transport, sess: Session, meta: AudioMetadata) returns (r: Result<(), IoError>)
    requires Linked(t, sess)
    modifies sess.Footprint()
    ensures fresh(sess.Footprint() - old(sess.Footprint()))
    ensures NothingUndone(old(sess.OnDisk()), sess.OnDisk()) && Acted(t, sess, Format(meta), r)
  {
    hide Transport.Valid, Session.Valid, Session.Salvage, NothingUndone, PartsOf, Interrupted, RefusedInHand,
         Session.Justified, Session.Consistent, Whole, Session.OnDisk, Session.Live;
    Separate(t, sess);
    FormatInHand(sess.hound, meta, []);
    PartsOfAppend(sess.hound, t.s.written, Format(meta));
    r := sess.OpenNewPart(meta, false);
    Separate(t, sess);
  }

  // The session's half of writing a block.
  method WriteSlot(t: Transport, sess: Session, slot: u16) returns (r: Result<(), IoError>)
    requires Linked(t, sess) && slot < |t.slots|
    modifies sess.Footprint()
    ensures fresh(sess.Footprint() - old(sess.Footprint()))
    ensures NothingUndone(old(sess.OnDisk()), sess.OnDisk())
    ensures slot < |t.s.slots| && Acted(t, sess, Audio(t.s.slots[slot]), r)
  {
    hide Transport.Valid, Session.Valid, Session.Salvage, NothingUndone, PartsOf, Stored, AddBlock, Interrupted,
         RefusedInHand, Session.Justified, Session.Consistent, Whole, Session.OnDisk, Session.Live;
    Separate(t, sess);
    SlotShown(t, slot);
    FormatInHand(sess.hound, AudioMetadata(0, 0, 0), t.s.slots[slot]);
    PartsOfAppend(sess.hound, t.s.written, Audio(t.s.slots[slot]));
    r := sess.WriteBlockWithOverflowRollover(t.slots[slot]);
    Separate(t, sess);
  }

  // Opens the part of the barrier's own metadata. The pop and the opening are one
  // step of the step system: nobody else takes from the control ring.
  method ApplyMatch(t: Transport, sess: Session, meta: AudioMetadata,
                    ghost desc: Descriptor, ghost draining: bool) returns (r: Result<(), IoError>)
    requires Linked(t, sess) && t.s.worker == InFlight(desc, draining) && IsBarrier(desc)
    requires t.control != [] && t.control[0].Metadata? && t.control[0].meta == meta
    requires Sub16(desc.validLen, t.control[0].seqNo) == 0
    modifies t, sess.Footprint()
    ensures fresh(sess.Footprint() - old(sess.Footprint()))
    ensures Forward(old(t.Here()), t.Here())
    ensures NothingUndone(old(sess.OnDisk()), sess.OnDisk()) && t.work == old(t.work)
    ensures r.Ok? ==> Linked(t, sess) && t.s.worker == Releasing(desc, draining)
    ensures r.Err? ==> Ended(t, sess, r)
  {
    hide Transport.Valid, Session.Valid, Session.Salvage, NothingUndone, PartsOf, Forward, Halted, RefusedInHand,
         Session.Justified, Session.Consistent, Whole, Session.OnDisk;
    Separate(t, sess);
    ghost var before := t.Here();
    r := OpenPart(t, sess, meta);
    Separate(t, sess);
    t.TakeMatch(r.Ok?, desc, draining);
    ForwardRests(t, before);
  }

  lemma ForwardRests(t: Transport, before: Point)
    requires Forward(before, t.Here()) && t.AccountsFor(before.s)
    ensures t.Accounted() && t.s.sender == before.s.sender
  {
  }

  // Drops a superseded metadata; the session is untouched.
  method DropOlder(t: Transport, sess: Session, ghost desc: Descriptor, ghost draining: bool)
    requires Linked(t, sess) && t.s.worker == InFlight(desc, draining) && IsBarrier(desc)
    requires t.control != [] && t.control[0].Metadata? && 0 < Sub16(desc.validLen, t.control[0].seqNo) < 0x8000
    modifies t
    ensures Linked(t, sess) && t.s.worker == InFlight(desc, draining)
    ensures Forward(old(t.Here()), t.Here())
    ensures t.control == old(t.control)[1..] && t.work == old(t.work)
  {
    hide Transport.Valid, Session.Valid, PartsOf, Forward;
    Separate(t, sess);
    ghost var before := t.Here();
    t.DropSuperseded(desc, draining);
    ForwardRests(t, before);
  }

  // Skips a barrier whose metadata is not at the head.
  method SkipBarrier(t: Transport, sess: Session, ghost desc: Descriptor, ghost draining: bool)
    requires Linked(t, sess) && t.s.worker == InFlight(desc, draining) && IsBarrier(desc)
    requires t.control == [] || t.control[0].StreamStop? || Sub16(desc.validLen, t.control[0].seqNo) >= 0x8000
    modifies t
    ensures Linked(t, sess) && t.s.worker == Releasing(desc, draining)
    ensures Forward(old(t.Here()), t.Here()) && t.work == old(t.work)
  {
    hide Transport.Valid, Session.Valid, PartsOf, Forward;
    Separate(t, sess);
    ghost var before := t.Here();
    t.Skip(desc, draining);
    ForwardRests(t, before);
  }

  // Applies the metadata a barrier names, dropping older ones before it.
  method HandleControlBarrier(t: Transport, sess: Session, barrierSeq: u16,
                              ghost desc: Descriptor, ghost draining: bool) returns (r: Result<(), IoError>)
    requires Linked(t, sess) && t.s.worker == InFlight(desc, draining)
    requires IsBarrier(desc) && desc.validLen == barrierSeq
    modifies t, sess.Footprint()
    ensures fresh(sess.Footprint() - old(sess.Footprint()))
    ensures Forward(old(t.Here()), t.Here())
    ensures NothingUndone(old(sess.OnDisk()), sess.OnDisk()) && t.work == old(t.work)
    ensures r.Ok? ==> Linked(t, sess) && t.s.worker == Releasing(desc, draining)
    ensures r.Err? ==> Ended(t, sess, r)
  {
    hide Linked, Rested, Ended, Forward, NothingUndone;
    Separate(t, sess);
    Untouched(sess.OnDisk());
    while t.control != [] && t.control[0].Metadata?
      invariant Linked(t, sess) && t.s.worker == InFlight(desc, draining)
      invariant t.Here() == old(t.Here()) || Forward(old(t.Here()), t.Here())
      invariant t.work == old(t.work)
      invariant sess.Footprint() == old(sess.Footprint()) && sess.OnDisk() == old(sess.OnDisk())
      decreases |t.control|
    {
      ghost var here := t.Here();
      var head := t.control[0];
      var diff := Sub16(barrierSeq, head.seqNo);
      if diff == 0 {
        r := ApplyMatch(t, sess, head.meta, desc, draining);
        ForwardTwice(old(t.Here()), here, t.Here());
        return;
      }
      if diff >= 0x8000 { break; }
      DropOlder(t, sess, desc, draining);
      ForwardTwice(old(t.Here()), here, t.Here());
    }
    ghost var here := t.Here();
    SkipBarrier(t, sess, desc, draining);
    ForwardTwice(old(t.Here()), here, t.Here());
    return Ok(());
  }

  // Writes the block in hand.
  method WriteInPlace(t: Transport, sess: Session, ghost desc: Descriptor, slot: u16, ghost draining: bool)
    returns (r: Result<(), IoError>)
    requires Linked(t, sess) && t.s.worker == InFlight(desc, draining)
    requires !IsBarrier(desc) && desc.slot == slot < |t.slots|
    modifies t, sess.Footprint()
    ensures fresh(sess.Footprint() - old(sess.Footprint()))
    ensures Forward(old(t.Here()), t.Here())
    ensures NothingUndone(old(sess.OnDisk()), sess.OnDisk()) && t.work == old(t.work)
    ensures r.Ok? ==> Linked(t, sess) && t.s.worker == Releasing(desc, draining)
    ensures r.Err? ==> Ended(t, sess, r)
  {
    hide Transport.Valid, Session.Valid, Session.Salvage, NothingUndone, PartsOf, Forward, Halted, RefusedInHand,
         Session.Justified, Session.Consistent, Whole, Session.OnDisk;
    Separate(t, sess);
    ghost var before := t.Here();
    r := WriteSlot(t, sess, slot);
    Separate(t, sess);
    t.Settle(r.Ok?, desc, draining);
    ForwardRests(t, before);
  }

  lemma SlotShown(t: Transport, slot: nat)
    requires t.Valid() && slot < |t.slots|
    ensures slot < |t.s.slots| && t.slots[slot].Valid() && t.slots[slot].AsSlice() == t.s.slots[slot]
    ensures t.slots[slot] in t.Store() && t.slots[slot].data in t.Store()
  {
    hide Stored, Exec;
    SlotLength(t.slots, t.s.slots, slot);
    assert t.slots[slot] in t.slots;
  }

  // Handles a popped descriptor and gives its slot back.
  method HandleDescriptor(t: Transport, sess: Session, desc: Descriptor, ghost draining: bool)
    returns (r: Result<(), IoError>)
    requires Linked(t, sess) && t.s.worker == InFlight(desc, draining)
    requires !IsBarrier(desc) ==> desc.slot < |t.slots|
    modifies t, sess.Footprint()
    ensures fresh(sess.Footprint() - old(sess.Footprint()))
    ensures Forward(old(t.Here()), t.Here())
    ensures NothingUndone(old(sess.OnDisk()), sess.OnDisk()) && t.work == old(t.work)
    ensures r.Ok? ==> Linked(t, sess) && t.s.worker == Resume(draining)
    ensures r.Err? ==> Ended(t, sess, r)
  {
    hide Transport.Valid, Session.Valid, Ended, NothingUndone, PartsOf, Forward, Resume;
    if IsBarrier(desc) {
      r := HandleControlBarrier(t, sess, desc.validLen, desc, draining);
    } else {
      r := WriteInPlace(t, sess, desc, desc.slot, draining);
    }
    if r.Err? { return; }
    Separate(t, sess);
    ghost var mid := t.Here();
    t.Release(desc, draining);
    ForwardRests(t, mid);
    ForwardTwice(old(t.Here()), mid, t.Here());
  }

  // Finalizes the live part once the rings are drained.
  method Terminate(t: Transport, sess: Session) returns (r: Result<(), IoError>)
    requires Linked(t, sess) && t.work == []
    requires t.s.worker == Draining || (t.s.worker == SawEmpty && t.control == [] && t.abandoned)
    modifies t, sess.Footprint()
    ensures fresh(sess.Footprint() - old(sess.Footprint()))
    ensures Ended(t, sess, r) && NothingUndone(old(sess.OnDisk()), sess.OnDisk())
    ensures Forward(old(t.Here()), t.Here())
  {
    hide Transport.Valid, Session.Valid, Session.Salvage, Session.Consistent, PartsOf, Whole, Forward, Interrupted;
    Separate(t, sess);
    ghost var before := t.Here();
    r := sess.CloseWriter();
    Separate(t, sess);
    t.Exit(r.Ok?);
    ForwardRests(t, before);
  }

  // One turn of the drain: the next queued descriptor, or the finalization.
  method DrainOne(t: Transport, sess: Session) returns (r: Result<(), IoError>, over: bool)
    requires Linked(t, sess) && t.s.worker == Draining
    modifies t, sess.Footprint()
    ensures fresh(sess.Footprint() - old(sess.Footprint()))
    ensures Forward(old(t.Here()), t.Here()) && NothingUndone(old(sess.OnDisk()), sess.OnDisk())
    ensures over ==> Ended(t, sess, r)
    ensures !over ==> r.Ok? && Linked(t, sess) && t.s.worker == Draining && |t.work| < |old(t.work)|
  {
    hide Transport.Valid, Session.Valid, Ended, PartsOf, NothingUndone, Forward;
    Separate(t, sess);
    ghost var before := t.Here();
    var popped := t.TryPop(true);
    if popped.Some? { ForwardRests(t, before); }
    ghost var mid := t.Here();
    if popped.None? {
      r := Terminate(t, sess);
      over := true;
    } else {
      r := HandleDescriptor(t, sess, popped.value, true);
      over := r.Err?;
    }
    ForwardTwice(before, mid, t.Here());
  }

  // The stop token was taken: what is queued is handled before the exit.
  method DrainAfterStop(t: Transport, sess: Session) returns (r: Result<(), IoError>)
    requires Linked(t, sess) && t.s.worker == Draining
    modifies t, sess.Footprint()
    ensures fresh(sess.Footprint() - old(sess.Footprint()))
    ensures Ended(t, sess, r) && NothingUndone(old(sess.OnDisk()), sess.OnDisk())
    ensures Forward(old(t.Here()), t.Here())
  {
    hide Linked, Ended, NothingUndone, Forward;
    Untouched(sess.OnDisk());
    while true
      invariant Linked(t, sess) && t.s.worker == Draining
      invariant fresh(sess.Footprint() - old(sess.Footprint()))
      invariant NothingUndone(old(sess.OnDisk()), sess.OnDisk())
      invariant t.Here() == old(t.Here()) || Forward(old(t.Here()), t.Here())
      decreases |t.work|
    {
      ghost var disk, here := sess.OnDisk(), t.Here();
      var over;
      r, over := DrainOne(t, sess);
      UndoneTwice(old(sess.OnDisk()), disk, sess.OnDisk());
      ForwardTwice(old(t.Here()), here, t.Here());
      if over { return; }
    }
  }

  // One poll of the work ring.
  method PollWork(t: Transport, sess: Session) returns (r: Result<(), IoError>, empty: bool)
    requires Linked(t, sess) && t.s.worker == Polling
    modifies t, sess.Footprint()
    ensures fresh(sess.Footprint() - old(sess.Footprint()))
    ensures Forward(old(t.Here()), t.Here()) && NothingUndone(old(sess.OnDisk()), sess.OnDisk())
    ensures r.Ok? ==> Linked(t, sess) && t.s.worker == if empty then SawEmpty else Polling
    ensures r.Err? ==> Ended(t, sess, r)
  {
    hide Transport.Valid, Session.Valid, Ended, PartsOf, Forward, NothingUndone;
    Separate(t, sess);
    Untouched(sess.OnDisk());
    ghost var before := t.Here();
    var popped := t.TryPop(false);
    ForwardRests(t, before);
    if popped.None? { return Ok(()), true; }
    ghost var mid := t.Here();
    r := HandleDescriptor(t, sess, popped.value, false);
    ForwardTwice(before, mid, t.Here());
    empty := false;
  }

  // The look at the control ring, after the work ring was found empty.
  method CheckControl(t: Transport, sess: Session) returns (r: Result<(), IoError>, over: bool, stop: bool)
    requires Linked(t, sess) && t.s.worker == SawEmpty
    modifies t, sess.Footprint()
    ensures fresh(sess.Footprint() - old(sess.Footprint()))
    ensures Forward(old(t.Here()), t.Here()) && NothingUndone(old(sess.OnDisk()), sess.OnDisk())
    ensures over ==> Ended(t, sess, r)
    ensures !over ==> r.Ok? && Linked(t, sess) && t.s.worker == Resume(stop)
  {
    hide Transport.Valid, Session.Valid, PartsOf, Forward, Ended, NothingUndone, Resume;
    Separate(t, sess);
    if t.control == [] && t.abandoned && t.work == [] {
      r := Terminate(t, sess);
      return r, true, false;
    }
    Untouched(sess.OnDisk());
    ghost var before := t.Here();
    stop := t.PollControl();
    ForwardRests(t, before);
    return Ok(()), false, stop;
  }

  // The control ring, and the drain if it held the stop token.
  method PollRest(t: Transport, sess: Session) returns (r: Result<(), IoError>, over: bool)
    requires Linked(t, sess) && t.s.worker == SawEmpty
    modifies t, sess.Footprint()
    ensures fresh(sess.Footprint() - old(sess.Footprint()))
    ensures Forward(old(t.Here()), t.Here()) && NothingUndone(old(sess.OnDisk()), sess.OnDisk())
    ensures over ==> Ended(t, sess, r)
    ensures !over ==> r.Ok? && Linked(t, sess) && t.s.worker == Polling
  {
    hide Linked, Ended, NothingUndone, Forward;
    var stop;
    r, over, stop := CheckControl(t, sess);
    if over || !stop { return; }
    ghost var disk, here := sess.OnDisk(), t.Here();
    r := DrainAfterStop(t, sess);
    UndoneTwice(old(sess.OnDisk()), disk, sess.OnDisk());
    ForwardTwice(old(t.Here()), here, t.Here());
    over := true;
  }

  // The worker between two looks at a ring.
  predicate Looking(worker: WorkerPc) {
    worker == Polling || worker == SawEmpty || worker == Draining
  }

  // The worker's next look at a ring and what follows from it: the loop, taken
  // apart where another thread may run. `at` is where the worker is. Every look is at
  // least one step, with the sender gone one towards the exit.
  method NextLook(t: Transport, sess: Session, at: WorkerPc)
    returns (r: Result<(), IoError>, over: bool, next: WorkerPc)
    requires Linked(t, sess) && t.s.worker == at && Looking(at)
    modifies t, sess.Footprint()
    ensures fresh(sess.Footprint() - old(sess.Footprint()))
    ensures Forward(old(t.Here()), t.Here()) && NothingUndone(old(sess.OnDisk()), sess.OnDisk())
    ensures over ==> Ended(t, sess, r)
    ensures !over ==> r.Ok? && Linked(t, sess) && t.s.worker == next && Looking(next)
  {
    hide Linked, Ended, NothingUndone, Forward;
    next := at;
    if at == Polling {
      var empty;
      r, empty := PollWork(t, sess);
      over, next := r.Err?, if empty then SawEmpty else Polling;
    } else if at == SawEmpty {
      var stop;
      r, over, stop := CheckControl(t, sess);
      next := Resume(stop);
    } else {
      r, over := DrainOne(t, sess);
    }
  }

  // What is left for the loop: the sender's turns, then the worker's steps.
  predicate Closer(before: State, turn: nat, after: State, next: nat, schedule: seq<seq<SenderCall>>) {
    var left := TurnsLeft(before.phase == Dropped, schedule, turn);
    var left' := TurnsLeft(after.phase == Dropped, schedule, next);
    left' < left || (left' == left && after.phase == before.phase == Dropped && StepsLeft(after) < StepsLeft(before))
  }

  // Worker steps after a sender's turn.
  lemma CloserBySteps(before: State, turn: nat, mid: Point, after: Point, schedule: seq<seq<SenderCall>>)
    requires Forward(mid, after)
    requires TurnsLeft(mid.s.phase == Dropped, schedule, turn + 1) < TurnsLeft(before.phase == Dropped, schedule, turn)
             || (mid.s.phase == Dropped && turn >= |schedule| && mid.s == before)
    ensures Closer(before, turn, after.s, turn + 1, schedule)
  {
    hide StepsLeft, WorkOnly;
  }

  // What was heard when the worker's steps follow the sender's turn.
  lemma HeardBySteps(a: Point, b: Point, c: Point, calls: seq<SenderCall>, heard: nat)
    requires Heard(a, b, calls, heard) && Forward(b, c)
    ensures Heard(a, c, calls, heard)
  {
    hide QuantaOf, TooLong, StepsLeft, WorkOnly;
  }

  // The turns before `turn`, each with the look at a ring after it.
  function Rounds(schedule: seq<seq<SenderCall>>, turn: nat): seq<Round> {
    if turn == 0 then [] else Rounds(schedule, turn - 1) + [Round(TurnCalls(schedule, turn - 1), 1)]
  }

  lemma RoundByForward(p: Params, before: seq<Action>, mid: Point, after: Point, calls: seq<SenderCall>)
    requires p.Legal() && mid.run == AfterCalls(p, before, calls) && Forward(mid, after)
    ensures RoundTaken(p, before, after.run, Round(calls, 1), false)
  {
    hide StepsLeft, WorkOnly, AfterCalls;
  }

  // The first half of an iteration: the work ring.
  method WorkHalf(t: Transport, sess: Session, schedule: seq<seq<SenderCall>>, turn: nat, ghost start: seq<Action>)
    returns (r: Result<(), IoError>, empty: bool, ghost heard: nat)
    requires Linked(t, sess) && t.s.worker == Polling
    requires t.p.Legal() && Alternates(t.p, start, t.run, Rounds(schedule, turn), false)
    modifies t, t.Store(), sess.Footprint()
    ensures fresh(sess.Footprint() - old(sess.Footprint()))
    ensures NothingUndone(old(sess.OnDisk()), sess.OnDisk())
    ensures Heard(old(t.Here()), t.Here(), TurnCalls(schedule, turn), heard)
    ensures Alternates(t.p, start, t.run, Rounds(schedule, turn + 1), false)
    ensures r.Ok? ==> Linked(t, sess) && t.s.worker == if empty then SawEmpty else Polling
    ensures r.Ok? ==> Closer(old(t.s), turn, t.s, turn + 1, schedule)
    ensures r.Err? ==> Ended(t, sess, r)
  {
    hide Linked, Rested, NothingUndone, Ended, Closer, Heard, Forward, RoundTaken, AfterCalls,
         Alternates;
    heard := Turn(t, sess, schedule, turn);
    ghost var mid := t.Here();
    r, empty := PollWork(t, sess);
    CloserBySteps(old(t.s), turn, mid, t.Here(), schedule);
    HeardBySteps(old(t.Here()), mid, t.Here(), TurnCalls(schedule, turn), heard);
    RoundByForward(t.p, old(t.run), mid, t.Here(), TurnCalls(schedule, turn));
    OneMoreRound(t.p, start, old(t.run), t.run, Rounds(schedule, turn), Round(TurnCalls(schedule, turn), 1), false, false);
  }

  // The second half: the control ring, unless the work ring had something.
  method ControlHalf(t: Transport, sess: Session, schedule: seq<seq<SenderCall>>, turn: nat, ghost start: seq<Action>)
    returns (r: Result<(), IoError>, over: bool, ghost heard: nat)
    requires Linked(t, sess) && t.s.worker == SawEmpty
    requires t.p.Legal() && Alternates(t.p, start, t.run, Rounds(schedule, turn), false)
    modifies t, t.Store(), sess.Footprint()
    ensures fresh(sess.Footprint() - old(sess.Footprint()))
    ensures NothingUndone(old(sess.OnDisk()), sess.OnDisk())
    ensures Heard(old(t.Here()), t.Here(), TurnCalls(schedule, turn), heard)
    ensures Alternates(t.p, start, t.run, Rounds(schedule, turn + 1), false)
    ensures over ==> Ended(t, sess, r)
    ensures !over ==> r.Ok? && Linked(t, sess) && t.s.worker == Polling && Closer(old(t.s), turn, t.s, turn + 1, schedule)
  {
    hide Linked, Rested, NothingUndone, Ended, Closer, Heard, Forward, RoundTaken, AfterCalls,
         Alternates;
    heard := Turn(t, sess, schedule, turn);
    ghost var mid := t.Here();
    r, over := PollRest(t, sess);
    CloserBySteps(old(t.s), turn, mid, t.Here(), schedule);
    HeardBySteps(old(t.Here()), mid, t.Here(), TurnCalls(schedule, turn), heard);
    RoundByForward(t.p, old(t.run), mid, t.Here(), TurnCalls(schedule, turn));
    OneMoreRound(t.p, start, old(t.run), t.run, Rounds(schedule, turn), Round(TurnCalls(schedule, turn), 1), false, false);
  }

  lemma LinkedFlags(t: Transport, sess: Session)
    requires Linked(t, sess)
    ensures (t.abandoned <==> t.s.phase == Dropped) && t.p.Legal()
  {
    hide Transport.Valid, Session.Valid, PartsOf;
    PhaseFlags(t);
    RestedReaches(t);
  }

  lemma CloserTwice(a: State, i: nat, b: State, j: nat, c: State, k: nat, schedule: seq<seq<SenderCall>>)
    requires Closer(a, i, b, j, schedule) && Closer(b, j, c, k, schedule)
    ensures Closer(a, i, c, k, schedule)
  {
    hide StepsLeft;
  }

  // One iteration of the loop.
  method Iteration(t: Transport, sess: Session, schedule: seq<seq<SenderCall>>, turn: nat, ghost start: seq<Action>)
    returns (r: Result<(), IoError>, next: nat, over: bool, ghost heard: nat)
    requires Linked(t, sess) && t.s.worker == Polling
    requires t.p.Legal() && Alternates(t.p, start, t.run, Rounds(schedule, turn), false)
    modifies t, t.Store(), sess.Footprint()
    ensures fresh(sess.Footprint() - old(sess.Footprint()))
    ensures NothingUndone(old(sess.OnDisk()), sess.OnDisk())
    ensures turn < next && Heard(old(t.Here()), t.Here(), CallsBetween(schedule, turn, next), heard)
    ensures Alternates(t.p, start, t.run, Rounds(schedule, next), false)
    ensures over ==> Ended(t, sess, r)
    ensures !over ==> r.Ok? && Linked(t, sess) && t.s.worker == Polling && Closer(old(t.s), turn, t.s, next, schedule)
  {
    hide Linked, Rested, NothingUndone, Ended, Closer, Heard, TurnCalls, Alternates, Rounds,
         CallsBetween;
    var empty;
    r, empty, heard := WorkHalf(t, sess, schedule, turn, start);
    next, over := turn + 1, r.Err?;
    TurnIsCalls(schedule, turn);
    if r.Err? || !empty { return; }
    ghost var disk, mid := sess.OnDisk(), t.Here();
    ghost var heardMore;
    r, over, heardMore := ControlHalf(t, sess, schedule, turn + 1, start);
    next := turn + 2;
    TurnIsCalls(schedule, turn + 1);
    CallsOnward(schedule, turn, turn + 1, turn + 2);
    UndoneTwice(old(sess.OnDisk()), disk, sess.OnDisk());
    HeardTwice(old(t.Here()), mid, t.Here(), TurnCalls(schedule, turn), heard, TurnCalls(schedule, turn + 1), heardMore);
    heard := if mid.s.phase == Live then |TurnCalls(schedule, turn)| + heardMore else heard;
    if !over { CloserTwice(old(t.s), turn, mid.s, turn + 1, t.s, turn + 2, schedule); }
  }

  lemma TurnIsCalls(schedule: seq<seq<SenderCall>>, turn: nat)
    ensures CallsBetween(schedule, turn, turn + 1) == TurnCalls(schedule, turn)
  {
    hide TurnCalls;
    assert CallsBetween(schedule, turn, turn) == [];
  }

  lemma CloserLess(a: State, i: nat, b: State, j: nat, schedule: seq<seq<SenderCall>>)
    requires Closer(a, i, b, j, schedule)
    ensures TurnsLeft(b.phase == Dropped, schedule, j) < TurnsLeft(a.phase == Dropped, schedule, i)
            || (TurnsLeft(b.phase == Dropped, schedule, j) == TurnsLeft(a.phase == Dropped, schedule, i)
                && StepsBound(b) < StepsBound(a))
  {
    hide StepsLeft;
  }

  // The loop. It ends for every schedule and every answer of the disk, and on
  // success the files hold exactly what the step system counts as written. The calls
  // were those of the schedule, in order, and then the drop.
  method DiskWriterLoopPool(t: Transport, sess: Session, schedule: seq<seq<SenderCall>>)
    returns (r: Result<(), IoError>, ghost turns: nat, ghost heard: nat)
    requires Linked(t, sess) && t.s.worker == Polling
    modifies t, t.Store(), sess.Footprint()
    ensures Ended(t, sess, r) && NothingUndone(old(sess.OnDisk()), sess.OnDisk())
    ensures Heard(old(t.Here()), t.Here(), CallsBetween(schedule, 0, turns), heard)
    ensures t.p.Legal() && Alternates(t.p, old(t.run), t.run, Rounds(schedule, turns), false)
  {
    hide Linked, Rested, NothingUndone, StepsBound, Ended, Closer, TurnsLeft, Heard, TurnCalls, CallsBetween, Alternates,
         Rounds;
    var turn: nat := 0;
    Untouched(sess.OnDisk());
    turns, heard := 0, 0;
    NothingHeard(t.Here());
    NoTurns(schedule, t.p, t.run);
    LinkedFlags(t, sess);
    while true
      invariant Linked(t, sess) && t.s.worker == Polling && turns == turn
      invariant fresh(sess.Footprint() - old(sess.Footprint()))
      invariant NothingUndone(old(sess.OnDisk()), sess.OnDisk())
      invariant Heard(old(t.Here()), t.Here(), CallsBetween(schedule, 0, turn), heard)
      invariant t.p.Legal() && Alternates(t.p, old(t.run), t.run, Rounds(schedule, turn), false)
      decreases TurnsLeft(t.s.phase == Dropped, schedule, turn), StepsBound(t.s)
    {
      var over;
      ghost var disk, here, was, heardMore := sess.OnDisk(), t.Here(), turn, 0;
      r, turn, over, heardMore := Iteration(t, sess, schedule, turn, old(t.run));
      UndoneTwice(old(sess.OnDisk()), disk, sess.OnDisk());
      HeardTwice(old(t.Here()), here, t.Here(), CallsBetween(schedule, 0, was), heard,
                 CallsBetween(schedule, was, turn), heardMore);
      CallsOnward(schedule, 0, was, turn);
      heard := if here.s.phase == Live then |CallsBetween(schedule, 0, was)| + heardMore else heard;
      turns := turn;
      if over { return; }
      CloserLess(here.s, was, t.s, turn, schedule);
    }
  }

  lemma NoTurns(schedule: seq<seq<SenderCall>>, p: Params, run: seq<Action>)
    ensures CallsBetween(schedule, 0, 0) == []
    ensures p.Legal() ==> Alternates(p, run, run, Rounds(schedule, 0), false)
  {
  }

  function StepsBound(s: State): nat {
    if s.phase == Dropped then StepsLeft(s) else 0
  }

  // The sender's turn leaves the session as it is.
  method Turn(t: Transport, sess: Session, schedule: seq<seq<SenderCall>>, turn: nat) returns (ghost heard: nat)
    requires Linked(t, sess)
    modifies t, t.Store()
    ensures Linked(t, sess) && t.s.worker == old(t.s.worker)
    ensures t.p.Legal() && t.run == AfterCalls(t.p, old(t.run), TurnCalls(schedule, turn))
    ensures Heard(old(t.Here()), t.Here(), TurnCalls(schedule, turn), heard)
    ensures TurnsLeft(t.s.phase == Dropped, schedule, turn + 1) < TurnsLeft(old(t.s.phase) == Dropped, schedule, turn)
            || (t.s.phase == Dropped && turn >= |schedule| && t.s == old(t.s))
  {
    hide Transport.Valid, Session.Valid, PartsOf, Heard, TurnCalls, AfterCalls;
    Separate(t, sess);
    LinkedFlags(t, sess);
    heard := SenderTurn(t, schedule, turn);
    PhaseFlags(t);
  }

  // ----- a schedule of recording calls -----

  // What the audio callback calls; the guard ends the stream.
  predicate Recording(call: SenderCall) {
    call.Quantum? || call.Announcement?
  }

  function Flat(schedule: seq<seq<SenderCall>>): seq<SenderCall> {
    if schedule == [] then [] else Flat(schedule[..|schedule| - 1]) + schedule[|schedule| - 1]
  }

  predicate AllRecording(schedule: seq<seq<SenderCall>>) {
    forall k :: 0 <= k < |schedule| ==> forall call <- schedule[k] :: Recording(call)
  }

  // The calls of the first turns are the schedule's,
  lemma {:induction false} CallsAreSchedule(schedule: seq<seq<SenderCall>>, turns: nat)
    requires turns <= |schedule|
    ensures CallsBetween(schedule, 0, turns) == Flat(schedule[..turns])
  {
    if turns > 0 {
      CallsAreSchedule(schedule, turns - 1);
      assert schedule[..turns][..turns - 1] == schedule[..turns - 1];
    }
  }

  // and those of the later turns nothing but the drop.
  lemma {:induction false} LaterCallsDrop(schedule: seq<seq<SenderCall>>, from: nat, turns: nat)
    requires |schedule| <= from
    ensures forall k :: 0 <= k < |CallsBetween(schedule, from, turns)| ==> CallsBetween(schedule, from, turns)[k] == HangUp
    decreases turns
  {
    if from < turns { LaterCallsDrop(schedule, from, turns - 1); }
  }

  lemma {:induction false} FlatRecording(schedule: seq<seq<SenderCall>>)
    requires AllRecording(schedule)
    ensures forall k :: 0 <= k < |Flat(schedule)| ==> Recording(Flat(schedule)[k])
  {
    if schedule != [] {
      var last := schedule[|schedule| - 1];
      FlatRecording(schedule[..|schedule| - 1]);
      assert forall k :: 0 <= k < |last| ==> last[k] in last;
    }
  }

  lemma {:induction false} DropsHaveNoQuanta(calls: seq<SenderCall>)
    requires forall k :: 0 <= k < |calls| ==> calls[k] == HangUp
    ensures QuantaOf(calls) == [] && TooLong(calls) == 0
  {
    if calls != [] { DropsHaveNoQuanta(calls[..|calls| - 1]); }
  }

  // Before the stream ends every recording call is made.
  lemma EndsLate(calls: seq<SenderCall>, recorded: seq<SenderCall>, heard: nat)
    requires recorded <= calls && (forall k :: 0 <= k < |recorded| ==> Recording(recorded[k]))
    requires 0 < heard <= |calls| && EndsStream(calls[heard - 1])
    ensures heard > |recorded|
  {
  }

  lemma TurnsOutlast(schedule: seq<seq<SenderCall>>, turns: nat, heard: nat)
    requires AllRecording(schedule) && 0 < heard <= |CallsBetween(schedule, 0, turns)|
    requires EndsStream(CallsBetween(schedule, 0, turns)[heard - 1])
    ensures turns >= |schedule|
  {
    hide Flat, CallsBetween;
    if turns < |schedule| {
      CallsAreSchedule(schedule, turns);
      FlatRecording(schedule[..turns]);
      EndsLate(Flat(schedule[..turns]), Flat(schedule[..turns]), heard);
    }
  }

  // A stream that ended under a schedule of recording calls heard all of them.
  lemma ScheduleIsHeard(before: Point, after: Point, schedule: seq<seq<SenderCall>>, turns: nat, heard: nat)
    requires Heard(before, after, CallsBetween(schedule, 0, turns), heard) && AllRecording(schedule)
    requires before.s.phase == Live && after.s.phase != Live
    ensures after.s.offered == before.s.offered + QuantaOf(Flat(schedule))
    ensures after.oversized == before.oversized + TooLong(Flat(schedule))
  {
    hide QuantaOf, TooLong, CallsBetween, Flat, AllRecording;
    var calls, flat, n := CallsBetween(schedule, 0, turns), Flat(schedule), |schedule|;
    TurnsOutlast(schedule, turns, heard);
    CallsAreSchedule(schedule, n);
    assert schedule[..n] == schedule;
    CallsOnward(schedule, 0, n, turns);
    LaterCallsDrop(schedule, n, turns);
    FlatRecording(schedule);
    EndsLate(calls, flat, heard);
    var drops := calls[|flat|..heard];
    assert calls[..heard] == flat + drops;
    forall k | 0 <= k < |drops| ensures drops[k] == HangUp {
      assert drops[k] == CallsBetween(schedule, n, turns)[k];
    }
    QuantaConcat(flat, drops);
    DropsHaveNoQuanta(drops);
    assert QuantaOf(flat) + [] == QuantaOf(flat);
  }
}
