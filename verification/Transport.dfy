/**
 The recording transport as an object: the pool's rings and preallocated slots,
 the control ring and the sender's retry state (src/recording/pool.rs:178-245, 285-570,
 src/recording/transport.rs:159-265). `run` is the sequence of atomic steps the
 calls so far amount to in the step system of module Pipeline, and `s` its state.
 */
module Transport {
  import opened Wrappers
  import opened Buffer
  import opened Blocks
  import opened Pipeline
  import opened PipelineInvariants
  import opened PipelineTheorems
  import opened PipelineDrain

  ghost function StoreOf(slots: seq<AlignedBlock>): set<object> {
    (set b | b in slots :: b as object) + (set b | b in slots :: b.data as object)
  }

  // Every slot shows the block the step system has there, and no two slots share
  // an object or its samples.
  ghost predicate Stored(slots: seq<AlignedBlock>, blocks: seq<Block>)
    reads StoreOf(slots)
  {
    && |slots| == |blocks|
    && (forall i :: 0 <= i < |slots| ==>
          slots[i].Valid() && slots[i].data.Length == MAX_BLOCK_SIZE && slots[i].AsSlice() == blocks[i])
    && (forall i, j :: 0 <= i < j < |slots| ==> slots[i] != slots[j] && slots[i].data != slots[j].data)
  }

  // A run, the state it reaches, and the quanta that were too long to be in it.
  datatype Point = Point(run: seq<Action>, s: State, oversized: nat)

  predicate WorkOnly(steps: seq<Action>) {
    forall a <- steps :: a.Work?
  }

  // The run goes on by worker steps alone, and the sender stays where it is.
  predicate Onward(before: Point, after: Point) {
    && before.run <= after.run && WorkOnly(after.run[|before.run|..])
    && Keeps(before.s, after.s) && after.oversized == before.oversized
  }

  lemma OnwardTwice(a: Point, b: Point, c: Point)
    requires Onward(a, b) && Onward(b, c)
    ensures Onward(a, c)
  {
    assert c.run[|a.run|..] == b.run[|a.run|..] + c.run[|b.run|..];
  }

  // At least one more step was taken; with the sender gone, one towards the exit.
  predicate Progress(before: Point, after: Point) {
    && |before.run| < |after.run| && after.s.phase == before.s.phase
    && (before.s.phase == Dropped ==> StepsLeft(after.s) < StepsLeft(before.s))
  }

  // Worker steps, at least one.
  predicate Forward(before: Point, after: Point) {
    Onward(before, after) && Progress(before, after)
  }

  lemma ForwardTwice(a: Point, b: Point, c: Point)
    requires (a == b || Forward(a, b)) && Forward(b, c)
    ensures Forward(a, c)
  {
    hide StepsLeft, Keeps, WorkOnly;
    if a != b { OnwardTwice(a, b, c); }
  }

  class Transport {
    const p: Params
    const slots: seq<AlignedBlock>
    var free: seq<u16>
    var work: seq<Descriptor>
    var control: seq<ControlPayload>
    var pendingBarrier: Option<(u16, AudioMetadata)>
    var nextSeq: u16
    var slotLeaks: nat
    var abandoned: bool
    var stopSent: bool
    // The RT callback's own flag and overrun counter.
    var metaSent: bool
    var overruns: nat
    var overrunFrames: nat
    // Quanta longer than a block, which never reach the pool.
    var oversized: nat
    ghost var run: seq<Action>
    ghost var s: State

    ghost predicate Reached()
      reads this
    {
      p.Legal() && s == Exec(p, run)
    }

    ghost predicate Mirrors()
      reads this
    {
      && free == s.free && work == s.work && control == s.control
      && pendingBarrier == s.pending && nextSeq == s.next && slotLeaks == s.leaks
      && (abandoned <==> s.phase == Dropped) && (s.phase == Live <==> !stopSent && !abandoned)
    }

    // The caller's flag and counter agree with the step system: every quantum it
    // refused was counted, and so was every one too long to be offered to it.
    ghost predicate Accounted()
      reads this
    {
      AccountsFor(s)
    }

    ghost predicate AccountsFor(state: State)
      reads this
    {
      && metaSent == state.confirmed && overruns == state.refused + oversized
      && (overrunFrames == 0 <==> overruns == 0)
    }

    ghost function Here(): Point
      reads this
    {
      Point(run, s, oversized)
    }

    ghost function Store(): set<object> {
      StoreOf(slots)
    }

    ghost predicate Valid()
      reads this, Store()
    {
      Reached() && Mirrors() && Stored(slots, s.slots)
    }

    // Seeds the free ring with every index and allocates the slots.
    constructor (p: Params)
      requires p.Legal()
      ensures Valid() && Accounted() && this.p == p && run == [] && s == Initial(p) && fresh(Store()) && oversized == 0
    {
      var seeded: seq<u16> := [];
      var idx: u16 := 0;
      while idx < p.n
        invariant idx <= p.n && seeded == Indices(idx)
      {
        seeded := seeded + [idx];
        idx := idx + 1;
      }
      var made: seq<AlignedBlock> := [];
      while |made| < p.n
        invariant |made| <= p.n && Stored(made, seq(|made|, _ => []))
        invariant forall b <- made :: fresh(b) && fresh(b.data)
      {
        var b := new AlignedBlock.Uninit(MAX_BLOCK_SIZE);
        made := made + [b];
      }
      this.p, slots, free := p, made, seeded;
      work, control, pendingBarrier, nextSeq, slotLeaks := [], [], None, 1, 0;
      abandoned, stopSent, metaSent, overruns, overrunFrames, oversized := false, false, false, 0, 0, 0;
      run, s := [], Initial(p);
    }

    // One atomic step of the step system.
    ghost method Step(a: Action)
      requires Reached()
      modifies this`run, this`s
      ensures Reached() && run == old(run) + [a] && s == Next(p, old(s), a)
    {
      hide Next;
      s, run := Next(p, s, a), run + [a];
      assert run[..|run| - 1] == old(run);
    }

    // The slots are objects of their own.
    lemma Apart()
      ensures this !in Store()
    {
    }

    // ----- the sender -----

    // Pops a free index for the block about to be written; none means overrun.
    method TryAcquire(ghost block: Block) returns (idx: Option<u16>)
      requires Valid() && s.phase == Live && s.sender == Idle && s.confirmed
      modifies this`free, this`run, this`s
      ensures Valid() && run == old(run) + [Offer(block)]
      ensures idx.Some? <==> old(free) != []
      ensures s == if idx.Some?
                   then old(s).(offered := old(s).offered + [block], free := old(s).free[1..],
                                sender := Acquired(idx.value, block))
                   else old(s).(offered := old(s).offered + [block], refused := old(s).refused + 1)
      ensures idx.Some? ==> idx.value < |slots|
    {
      hide Exec, Stored;
      Apart();
      idx := None;
      if free != [] {
        FreeIsIndex(p, run);
        StoredLength(slots, s.slots);
        idx := Some(free[0]);
        free := free[1..];
      }
      Step(Offer(block));
    }

    // `block_mut().fill_planar` on the acquired slot: the other slots keep theirs.
    method Fill(idx: u16, left: seq<Sample>, right: seq<Sample>)
      requires Valid() && idx < |slots| && s.sender == Acquired(idx, Planar(left, right))
      modifies this`run, this`s, Store()
      ensures Valid() && s == old(s).(slots := old(s).slots[idx := Planar(left, right)], sender := Filled(idx))
      ensures run == old(run) + [Action.Fill]
    {
      hide Exec, Stored, Planar;
      StoredLength(slots, s.slots);
      FillSlot(slots, s.slots, idx, left, right);
      Step(Action.Fill);
    }

    // Pushes the descriptor of the filled slot. On a full ring the slot is lost.
    method Publish(idx: u16) returns (ok: bool)
      requires Valid() && idx < |slots| && s.sender == Filled(idx)
      modifies this`work, this`slotLeaks, this`run, this`s
      ensures Valid() && s.sender == Idle && s.phase == old(s).phase && s.confirmed == old(s).confirmed
      ensures s.accepted == old(s).accepted + (if ok then [Audio(old(s).slots[idx])] else [])
      ensures s.refused == old(s).refused + (if ok then 0 else 1)
      ensures s.offered == old(s).offered && SenderOnly(old(s), s) && control == old(control)
      ensures run == old(run) + [Action.Publish]
    {
      hide Exec, Stored;
      Apart();
      SlotLength(slots, s.slots, idx);
      var desc := Descriptor(idx, slots[idx].validLen);
      ok := |work| < p.w;
      if ok { work := work + [desc]; } else { slotLeaks := slotLeaks + 1; }
      Step(Action.Publish);
    }

    // Acquires a slot, fills it in place and publishes its descriptor. An accepted
    // block is the last confirmed event; a refused one changes no confirmed event.
    method TryPushAudio(left: seq<Sample>, right: seq<Sample>) returns (ok: bool)
      requires Valid() && s.phase == Live && s.sender == Idle && s.confirmed
      modifies this, Store()
      ensures Valid() && s.phase == Live && s.sender == Idle && s.confirmed
      ensures unchanged(`metaSent) && SenderOnly(old(s), s)
      ensures unchanged(`overruns) && unchanged(`overrunFrames) && unchanged(`oversized)
      ensures s.offered == old(s.offered) + [Planar(left, right)]
      ensures s.refused == old(s.refused) + (if ok then 0 else 1)
      ensures s.accepted == old(s.accepted) + (if ok then [Audio(Planar(left, right))] else [])
      ensures run == old(run) + AudioSteps(old(s), Planar(left, right))
    {
      hide Exec, Stored, Planar, Reached;
      var idx := TryAcquire(Planar(left, right));
      if idx.None? { return false; }
      StoredLength(slots, s.slots);
      Fill(idx.value, left, right);
      ok := Publish(idx.value);
    }

    // Pushes the descriptor that marks a format change in the audio FIFO.
    method TryPushBarrier(seqNo: u16) returns (ok: bool)
      modifies this`work
      ensures ok <==> |old(work)| < p.w
      ensures work == if ok then old(work) + [Barrier(seqNo)] else old(work)
    {
      ok := |work| < p.w;
      if ok { work := work + [Descriptor(CONTROL_BARRIER_SLOT, seqNo)]; }
    }

    // Pushes the barrier of a format whose control message is already queued.
    method ConfirmMetadata(seqNo: u16, meta: AudioMetadata, ghost step: Action) returns (ok: bool)
      requires Valid() && s.phase == Live && Next(p, s, step) == BarrierStep(p, s, seqNo, meta)
      modifies this`work, this`pendingBarrier, this`run, this`s
      ensures Valid() && s.phase == Live && s.sender == Idle && s.confirmed == ok
      ensures s.accepted == old(s).accepted + (if ok then [Format(meta)] else [])
      ensures s.refused == old(s).refused && s.offered == old(s).offered && SenderOnly(old(s), s)
      ensures pendingBarrier == (if ok then None else Some((seqNo, meta))) && run == old(run) + [step]
    {
      hide Exec, Stored, Next;
      Apart();
      ok := TryPushBarrier(seqNo);
      pendingBarrier := if ok then None else Some((seqNo, meta));
      Step(step);
    }

    // Queues the control message of a format.
    method IssueMetadata(meta: AudioMetadata) returns (seqNo: Option<u16>)
      requires Valid() && s.phase == Live && s.sender == Idle
      requires pendingBarrier.Some? ==> pendingBarrier.value.1 != meta
      modifies this`control, this`nextSeq, this`run, this`s
      ensures Valid() && run == old(run) + [Announce(meta)]
      ensures seqNo == if |old(control)| < p.c then Some(old(nextSeq)) else None
      ensures control == if seqNo.Some? then old(control) + [Metadata(old(nextSeq), meta)] else old(control)
      ensures s == old(s).(control := control, confirmed := false, next := nextSeq,
                           sender := if seqNo.Some? then BarrierDue(old(nextSeq), meta) else Idle)
    {
      hide Exec, Stored;
      Apart();
      seqNo := None;
      if |control| < p.c {
        seqNo := Some(nextSeq);
        control := control + [Metadata(nextSeq, meta)];
        nextSeq := (nextSeq + 1) % 0x1_0000;
      }
      Step(Announce(meta));
    }

    // Announces a format: a control message, then its barrier. It is confirmed
    // exactly when the barrier is queued, and the pending format of an earlier
    // try gets no second control message.
    method TryPushMetadata(meta: AudioMetadata) returns (ok: bool)
      requires Valid() && s.phase == Live && s.sender == Idle
      modifies this`control, this`work, this`pendingBarrier, this`nextSeq, this`run, this`s
      ensures Valid() && s.phase == Live && s.sender == Idle && s.confirmed == ok
      ensures s.accepted == old(s).accepted + (if ok then [Format(meta)] else [])
      ensures s.refused == old(s).refused && s.offered == old(s).offered && SenderOnly(old(s), s)
      ensures !ok && control != old(control) ==> pendingBarrier == Some((old(nextSeq), meta))
      ensures control == old(control) ||
                (control == old(control) + [Metadata(old(nextSeq), meta)]
                 && !(old(pendingBarrier).Some? && old(pendingBarrier).value.1 == meta))
      ensures run == old(run) + FormatSteps(p, old(s), meta)
    {
      hide Exec, Stored, Reached;
      if pendingBarrier.Some? && pendingBarrier.value.1 == meta {
        ok := ConfirmMetadata(pendingBarrier.value.0, meta, Announce(meta));
        return;
      }
      var seqNo := IssueMetadata(meta);
      if seqNo.None? { return false; }
      ok := ConfirmMetadata(seqNo.value, meta, PushBarrier);
    }

    // The terminal token; afterwards the sender pushes nothing.
    method TryPushStreamStop() returns (ok: bool)
      requires Valid() && s.phase == Live && s.sender == Idle
      modifies this`control, this`stopSent, this`run, this`s
      ensures Valid() && s.sender == Idle && ok == (|old(control)| < p.c)
      ensures s == old(s).(phase := if ok then Stopped else Live,
                           control := if ok then old(s).control + [StreamStop] else old(s).control)
      ensures run == old(run) + [PushStop]
    {
      hide Exec, Stored;
      Apart();
      ok := |control| < p.c;
      if ok { control, stopSent := control + [StreamStop], true; }
      Step(PushStop);
    }

    // Drops both producers.
    method Drop()
      requires Valid() && s.phase != Dropped && s.sender == Idle
      modifies this`abandoned, this`run, this`s
      ensures Valid() && abandoned && s == old(s).(phase := Dropped) && run == old(run) + [DropSender]
    {
      hide Exec, Stored;
      Apart();
      abandoned := true;
      Step(DropSender);
    }

    // The RT callback's enqueue: a quantum longer than a block is refused outright,
    // nothing is queued before the format is confirmed, and every refused quantum is
    // counted.
    method SendAudio(left: seq<Sample>, right: seq<Sample>)
      requires Valid() && Accounted() && s.phase == Live && s.sender == Idle && |left| == |right|
      modifies this, Store()
      ensures Valid() && Accounted() && s.phase == Live && s.sender == Idle && SenderOnly(old(s), s)
      ensures s.offered == old(s).offered + (if Fits(left) then [WholeBlock(left, right)] else [])
      ensures oversized == old(oversized) + (if left == [] || Fits(left) then 0 else 1)
      ensures overrunFrames == old(overrunFrames) + (if overruns > old(overruns) then |left| else 0)
      ensures run == old(run) + (if Fits(left) then AudioSteps(old(s), WholeBlock(left, right)) else [])
    {
      hide Exec, Stored, Planar, AudioSteps, WholeBlock;
      if left == [] { return; }
      if 2 * |left| > MAX_BLOCK_SIZE {
        oversized := oversized + 1;
        overruns, overrunFrames := overruns + 1, overrunFrames + |left|;
        Apart();
        return;
      }
      WholeQuantum(left, right);
      var ok := false;
      if metaSent {
        ok := TryPushAudio(left, right);
      } else {
        Refuse(WholeBlock(left, right));
      }
      Apart();
      if !ok { overruns, overrunFrames := overruns + 1, overrunFrames + |left|; }
    }

    // A quantum that never reaches the pool.
    ghost method Refuse(block: Block)
      requires Valid() && s.phase == Live && s.sender == Idle && !s.confirmed
      modifies this`run, this`s
      ensures Valid() && s == old(s).(offered := old(s).offered + [block], refused := old(s).refused + 1)
      ensures run == old(run) + AudioSteps(old(s), block)
    {
      hide Exec, Stored;
      Apart();
      Step(Offer(block));
    }

    // The RT callback's announcement of the host's current format.
    method SendMetadata(meta: AudioMetadata)
      requires Valid() && Accounted() && s.phase == Live && s.sender == Idle
      modifies this
      ensures Valid() && Accounted() && s.phase == Live && s.sender == Idle && SenderOnly(old(s), s)
      ensures run == old(run) + FormatSteps(p, old(s), meta) && s.offered == old(s).offered
      ensures oversized == old(oversized)
    {
      hide Exec, Stored;
      metaSent := TryPushMetadata(meta);
      Apart();
    }

    // ----- the worker -----

    // Pops the next descriptor, if any.
    method TryPop(ghost draining: bool) returns (desc: Option<Descriptor>)
      requires Valid() && s.worker == Resume(draining)
      modifies this`work, this`run, this`s
      ensures Valid() && s.written == old(s).written
      ensures desc.Some? ==> old(work) != [] && desc.value == old(work)[0] && work == old(work)[1..]
                             && s.worker == InFlight(desc.value, draining)
      ensures desc.None? ==> old(work) == [] == work && s.worker == (if draining then Draining else SawEmpty)
      ensures if desc.Some? || !draining then Forward(old(Here()), Here()) else Here() == old(Here())
      ensures desc.Some? && !IsBarrier(desc.value) ==> desc.value.slot < |slots|
    {
      hide Exec, Stored, Forward;
      Apart();
      StoredLength(slots, s.slots);
      PoppedIsIndex(p, run, draining);
      desc := None;
      if work != [] {
        desc := Some(work[0]);
        work := work[1..];
      }
      if desc.Some? || !draining {
        WorkProgress(p, run, true, oversized);
        Step(Work(true));
      }
    }

    // Returns the slot to the free ring; a barrier holds none.
    method Release(desc: Descriptor, ghost draining: bool)
      requires Valid() && s.worker == Releasing(desc, draining)
      modifies this`free, this`slotLeaks, this`run, this`s
      ensures Valid() && Forward(old(Here()), Here())
      ensures s.worker == Resume(draining) && s.written == old(s).written
    {
      hide Exec, Stored, Forward;
      Apart();
      WorkProgress(p, run, true, oversized);
      if desc.slot != CONTROL_BARRIER_SLOT {
        if |free| < p.n { free := free + [desc.slot]; } else { slotLeaks := slotLeaks + 1; }
      }
      Step(Work(true));
    }

    // The block in hand was written, or the write failed and the slot is dropped.
    method Settle(ok: bool, ghost desc: Descriptor, ghost draining: bool)
      requires Valid() && s.worker == InFlight(desc, draining) && !IsBarrier(desc) && desc.slot < |slots|
      modifies this`slotLeaks, this`run, this`s
      ensures Valid() && Forward(old(Here()), Here()) && |old(s).slots| == |slots|
      ensures ok ==> s.worker == Releasing(desc, draining)
                     && s.written == old(s).written + [Audio(old(s).slots[desc.slot])]
      ensures !ok ==> s.worker == Failed([Audio(old(s).slots[desc.slot])], false) && s.written == old(s).written
    {
      hide Exec, Stored, Forward;
      Apart();
      StoredLength(slots, s.slots);
      WorkProgress(p, run, ok, oversized);
      if !ok { slotLeaks := slotLeaks + 1; }
      Step(Work(ok));
    }

    // The barrier's own metadata leaves the control ring, applied or failed.
    method TakeMatch(ok: bool, ghost desc: Descriptor, ghost draining: bool)
      requires Valid() && s.worker == InFlight(desc, draining) && IsBarrier(desc)
      requires control != [] && control[0].Metadata? && Sub16(desc.validLen, control[0].seqNo) == 0
      modifies this`control, this`slotLeaks, this`run, this`s
      ensures Valid() && Forward(old(Here()), Here())
      ensures ok ==> s.worker == Releasing(desc, draining)
                     && s.written == old(s).written + [Format(old(control)[0].meta)]
      ensures !ok ==> s.worker == Failed([Format(old(control)[0].meta)], true) && s.written == old(s).written
    {
      hide Exec, Stored, Forward;
      Apart();
      WorkProgress(p, run, ok, oversized);
      control := control[1..];
      if !ok { slotLeaks := slotLeaks + 1; }
      Step(Work(ok));
    }

    // A superseded metadata leaves the control ring.
    method DropSuperseded(ghost desc: Descriptor, ghost draining: bool)
      requires Valid() && s.worker == InFlight(desc, draining) && IsBarrier(desc)
      requires control != [] && control[0].Metadata? && 0 < Sub16(desc.validLen, control[0].seqNo) < 0x8000
      modifies this`control, this`run, this`s
      ensures Valid() && Forward(old(Here()), Here()) && control == old(control)[1..]
      ensures s.worker == InFlight(desc, draining) && s.written == old(s).written
    {
      hide Exec, Stored, Forward;
      Apart();
      WorkProgress(p, run, true, oversized);
      control := control[1..];
      Step(Work(true));
    }

    // The barrier is skipped: its metadata is not at the head.
    ghost method Skip(desc: Descriptor, draining: bool)
      requires Valid() && s.worker == InFlight(desc, draining) && IsBarrier(desc)
      requires control == [] || control[0].StreamStop? || Sub16(desc.validLen, control[0].seqNo) >= 0x8000
      modifies this`run, this`s
      ensures Valid() && Forward(old(Here()), Here())
      ensures s.worker == Releasing(desc, draining) && s.written == old(s).written
    {
      hide Exec, Stored, Forward;
      Apart();
      WorkProgress(p, run, true, oversized);
      Step(Work(true));
    }

    // The work ring was empty: the stop token, or an abandoned metadata, leaves
    // the control ring; otherwise the worker polls again.
    method PollControl() returns (stop: bool)
      requires Valid() && s.worker == SawEmpty
      requires !(control == [] && abandoned && work == [])
      modifies this`control, this`run, this`s
      ensures Valid() && Forward(old(Here()), Here()) && s.written == old(s).written
      ensures s.worker == Resume(stop)
    {
      hide Exec, Stored, Forward;
      Apart();
      WorkProgress(p, run, true, oversized);
      stop := control != [] && control[0].StreamStop?;
      if control != [] && (stop || abandoned) { control := control[1..]; }
      Step(Work(true));
    }

    // The last step: the rings are drained and the writer was finalized, or not.
    method Exit(ok: bool)
      requires Valid() && work == []
      requires s.worker == Draining || (s.worker == SawEmpty && control == [] && abandoned)
      modifies this`control, this`run, this`s
      ensures Valid() && Forward(old(Here()), Here()) && s.written == old(s).written
      ensures s.worker == if ok then Done else Failed([], false)
    {
      hide Exec, Stored, Forward;
      Apart();
      while control != []
        modifies this`control
        invariant Stored(slots, s.slots) && Reached()
      {
        control := control[1..];
      }
      WorkProgress(p, run, ok, oversized);
      Step(Work(ok));
    }
  }

  // A sender step writes nothing and leaves the worker where it is.
  predicate SenderOnly(before: State, after: State) {
    after.worker == before.worker && after.written == before.written
  }

  // A worker step that is not past the exit.
  lemma WorkProgress(p: Params, run: seq<Action>, io: bool, oversized: nat)
    requires p.Legal() && !Exited(Exec(p, run))
    ensures var s, s' := Exec(p, run), Next(p, Exec(p, run), Work(io));
            var before, after := Point(run, s, oversized), Point(run + [Work(io)], s', oversized);
            Forward(before, after)
  {
    hide Exec, Sound, StepsLeft, WorkStep;
    RunKeeps(p, run);
    var s := Exec(p, run);
    WorkKeeps(p, s, io);
    assert (run + [Work(io)])[|run|..] == [Work(io)];
    if s.phase == Dropped { StepTowardsExit(p, s, io); }
  }

  // A popped descriptor is a barrier or names a slot.
  lemma PoppedIsIndex(p: Params, run: seq<Action>, draining: bool)
    requires p.Legal() && Exec(p, run).worker == Resume(draining)
    ensures var s := Exec(p, run);
            s.work != [] && !IsBarrier(s.work[0]) ==> s.work[0].slot < |s.slots|
  {
    hide Exec, Sound;
    var s := Exec(p, run);
    if s.work != [] && !IsBarrier(s.work[0]) {
      var next := run + [Work(true)];
      assert next[..|run|] == run;
      NextIsPop(p, s, draining);
      RunKeeps(p, next);
      ExecSnoc(p, run, Work(true));
      SoundOwns(p, Exec(p, next));
      HeldIsIndex(p, Exec(p, next), s.work[0].slot);
    }
  }

  lemma ExecSnoc(p: Params, run: seq<Action>, a: Action)
    requires p.Legal()
    ensures Exec(p, run + [a]) == Next(p, Exec(p, run), a)
  {
    assert (run + [a])[..|run|] == run;
  }

  lemma SoundOwns(p: Params, s: State)
    requires Sound(p, s)
    ensures Owning(p, s) && |s.slots| == p.n
  {
  }

  lemma NextIsPop(p: Params, s: State, draining: bool)
    requires s.worker == Resume(draining) && s.work != []
    ensures Next(p, s, Work(true)) == PopStep(s, draining)
  {
  }

  // The steps of one audio call: refused, or acquired, filled and published.
  function AudioSteps(s: State, block: Block): seq<Action> {
    if s.confirmed && s.free != [] then [Offer(block), Action.Fill, Action.Publish] else [Offer(block)]
  }

  // The steps of one announcement: a retry or a full control ring is one step.
  function FormatSteps(p: Params, s: State, meta: AudioMetadata): seq<Action> {
    if (s.pending.Some? && s.pending.value.1 == meta) || |s.control| >= p.c then [Announce(meta)]
    else [Announce(meta), PushBarrier]
  }

  lemma StoredLength(slots: seq<AlignedBlock>, blocks: seq<Block>)
    requires Stored(slots, blocks)
    ensures |slots| == |blocks|
  {
  }

  lemma SlotLength(slots: seq<AlignedBlock>, blocks: seq<Block>, idx: nat)
    requires Stored(slots, blocks) && idx < |slots|
    ensures |slots| == |blocks| && slots[idx].Valid() && slots[idx].validLen == |blocks[idx]| <= MAX_BLOCK_SIZE
    ensures slots[idx].AsSlice() == blocks[idx]
  {
  }

  method FillSlot(slots: seq<AlignedBlock>, ghost blocks: seq<Block>, idx: nat, left: seq<Sample>, right: seq<Sample>)
    requires Stored(slots, blocks) && idx < |slots| == |blocks|
    modifies StoreOf(slots)
    ensures Stored(slots, blocks[idx := Planar(left, right)])
  {
    assert slots[idx] in slots;
    var _ := slots[idx].FillPlanar(left, right);
    slots[idx].PlanesMeet();
    assert slots[idx].AsSlice() == Planar(left, right);
    forall i | 0 <= i < |slots| && i != idx ensures slots[i].Valid() && slots[i].AsSlice() == blocks[i] {
      assert slots[i] != slots[idx] && slots[i].data != slots[idx].data;
    }
  }

  // A quantum a block can hold whole.
  predicate Fits(left: seq<Sample>) {
    left != [] && 2 * |left| <= MAX_BLOCK_SIZE
  }

  // Such a quantum as a block: all of both channels.
  function WholeBlock(left: seq<Sample>, right: seq<Sample>): Block
    requires |left| == |right| && Fits(left)
  {
    left + right
  }

  lemma WholeQuantum(left: seq<Sample>, right: seq<Sample>)
    requires |left| == |right| && Fits(left)
    ensures Planar(left, right) == WholeBlock(left, right)
  {
  }

  // The frames a slot takes from the two channels, plane by plane.
  function Planar(left: seq<Sample>, right: seq<Sample>): Block {
    var n := FramesTaken(left, right, MAX_BLOCK_SIZE);
    left[..n] + right[..n]
  }

  // A free index names a slot.
  lemma FreeIsIndex(p: Params, run: seq<Action>)
    requires p.Legal() && Exec(p, run).free != []
    ensures Exec(p, run).free[0] < |Exec(p, run).slots|
  {
    hide Exec, RingsOrdered, Bookkeeping;
    RunKeeps(p, run);
    assert Places(Exec(p, run), Exec(p, run).free[0]) >= 1;
  }
}
